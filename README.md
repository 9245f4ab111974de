# ProTools swath profiles in Dafny

ProTools draws swath profiles across a fault. It loads topography, an earthquake catalogue,
GNSS networks, InSAR scenes and GMT line files. Each dataset is translated to one reference
point and, when an EPSG code is given, projected. The profile loop then projects every point
onto the strike and normal directions of each profile and keeps the points inside the swath
box. Along the profile it bins the topography and the InSAR pixels. It matches every GNSS
station with the InSAR pixels around it.
Finally it fits a polynomial ramp along the profile and adds it back to the InSAR arrays.

The model covers this geometry and bookkeeping over Dafny `real`s:

- NaN in a value column (InSAR and GNSS LOS displacements, bin medians and spreads) is `Value.NaN`. Positions, distances, profile coordinates and topography heights are plain `real`s.
- A numpy index set is a boolean mask, and `Keep(s, m)` is `np.delete(s, <indices not in m>)`.
- A run that stops, through `sys.exit()` or an uncaught exception, is `Outcome.Fail` or
  `Status.Stop` with the kind of crash.

These are inputs rather than computations:

- the projection library (`ProjectionService`: which EPSG codes are valid, and the forward map);
- the numpy statistics (`Numerics`: percentile, median, standard deviation, square root);
- the sine and cosine of the strike;
- the ramp coefficients the solver returns.

| file | module | what it holds |
|---|---|---|
| common.dfy | `Common` | values, masks, `np.arange`, `np.digitize`, slicing |
| reference.dfy | `Reference` | the `update_proj` reference-point logic every dataset repeats |
| model2d.dfy | `Model2d` | classes `Fault2d`, `Profile`, `Topo`, `Seismicity` |
| network2d.dfy | `Network2d` | class `Network` (GNSS and InSAR) and its loaders |
| readgmt.dfy | `ReadGmt` | class `Gmt` and the multi-segment file splitter |
| profile.dfy | `Profile` | strike basis, profile coordinates, the swath mask and the GNSS selection predicates |
| swath.dfy | `Swath` | the per-dataset projection and swath filter of the profile loop |
| binning.dfy | `Binning` | topography and InSAR binning along the profile |
| crossmatch.dfy | `CrossMatch` | the GNSS–InSAR window matching |
| ramp.dfy | `Ramp` | ramp support, design matrix, ramp application and residuals |

The dataset classes keep the attributes their methods update in place. Their `load` and
`update_proj` methods are stated against specification functions (`UpdateFrame`,
`TopoPoints`, `InsarLoad`, `Segments`, …), and the lemmas state what the program promises
about those functions. The loops of the source become `while` loops with invariants:

- the bin loops (`BinTopo`, `BinInsar`);
- the window loop (`StationWindow`);
- the station loop (`MatchStations`);
- the line loop of `gmt.load` (`Gmt.Load`).

## Model

| member | source | states |
|---|---|---|
| Reference.UpdateFrame | network2d.py:62-75 | without an EPSG code the reference is copied into `ref_x`, `ref_y`; with one it is projected, and when the CRS creation failed the projection call stops the run; a missing `ref` leaves the offsets unchanged |
| Reference.UpdateFrameStrict | model2d.py:38-46 | the fault variant: an unknown EPSG code stops the run, a known one creates the projector and projects the reference |
| Reference.UpdateFrameIdempotent | model2d.py:107-119 | a second `update_proj` with the same reference gives the same frame |
| Model2d.NormalizeStrike | model2d.py:93-96 | the strike drops by 180 exactly when it is positive; a strike of at most 180 becomes non-positive |
| Model2d.NormalizeStrikeIdempotent | model2d.py:32-36 | for a strike of at most 180, normalising twice equals normalising once |
| Model2d.Fault2d.constructor | model2d.py:18-36 | `x`, `xx` (and `y`, `yy`) start at the given position; the reference starts at zero; the strike is normalised |
| Model2d.Fault2d.Create | model2d.py:18-24 | the run exits exactly when `x` or `y` is missing |
| Model2d.Fault2d.UpdateProj | model2d.py:38-53 | the new frame and position are those of `FaultPlacement`, and nothing else changes |
| Model2d.FaultPlacement | model2d.py:38-53 | without an EPSG code the position is `(xx - ref_x)*1e3`, `(yy - ref_y)*1e3`; with one it is `UTM(lon, lat) - ref`, and a missing `lon`/`lat` stops the run |
| Model2d.Profile.constructor | model2d.py:75-105 | `l`, `w` and `lbins` are stored times 1e3; the strike is normalised; the reference is zero |
| Model2d.Profile.Create | model2d.py:75-91 | a missing `lbins` raises; the run exits exactly when neither or both of `x` and `lat` are given |
| Model2d.Profile.UpdateProj | model2d.py:107-127 | the new frame and centre are those of `ProfilePlacement`, and the other attributes are unchanged |
| Model2d.ProfilePlacement | model2d.py:107-127 | without an EPSG code the centre is `(xx - ref_x)*1e3`, `(yy - ref_y)*1e3`; with one and `lat` given it is `UTM(lon, lat) - ref`; with `lat` missing it is left as it was |
| Model2d.ProfilePlacementIdempotent | model2d.py:121-127 | placing the profile twice with the same reference is the same as placing it once |
| Model2d.ProfilePlacementNoReference | model2d.py:104-122 | without an EPSG code and without a reference the centre is the native position times 1e3 |
| Model2d.Topo.constructor | model2d.py:144-163 | no points, zero reference |
| Model2d.Topo.UpdateProj | model2d.py:165-177 | the frame becomes `UpdateFrame` of the old one, or the run stops |
| Model2d.Topo.Load | model2d.py:179-194 | after `update_proj` the columns are those of `TopoPoints`; with an EPSG code, `lon`/`lat` are the file's columns |
| Model2d.TopoColumns | model2d.py:182-189 | every row gives the height times `scale` and the translated, converted or projected position; a missing projector stops the run |
| Model2d.TopoPoints | model2d.py:191-194 | x, y and z stay equal in length; without limits nothing is removed |
| Model2d.TopoPointsInBox | model2d.py:192-194 | with limits, exactly the points inside the closed box are kept, in file order, each height with its own position |
| Model2d.ShallowCatalogueRescaled | model2d.py:276-277 | `RescaledDepth` multiplies the depths by 1000 when their mean absolute value is below 100: every catalogue whose depths all lie within ±100 is rescaled |
| Model2d.Seismicity.constructor | model2d.py:233-242 | zero reference, no `depth` attribute |
| Model2d.Seismicity.UpdateProj | model2d.py:244-256 | the frame becomes `UpdateFrame` of the old one, or the run stops |
| Model2d.Seismicity.Load | model2d.py:258-277 | csv positions stay raw lon/lat without an EPSG code; txt positions are translated and converted; projected positions with one; `depth` is rescaled as `RescaledDepth`; another format stops the run |
| Model2d.Seismicity.ReadCatalogue | model2d.py:260-277 | the same after the projection update, with the crash kind of each stop |
| Network2d.LosProjectScale | network2d.py:124-136 | `LosProject`, the LOS projection `u·p` of each station: projecting the scaled velocities equals scaling the projection |
| Network2d.ScaleOffsetDifference | network2d.py:170 | `ScaleOffset`, `ulos*scale + cst`: the NaN pattern is kept, and differences between pixels depend on `scale` only, not on `cst` |
| Network2d.DefaultLimits | network2d.py:140-142 | the run stops exactly when there is no velocity component |
| Network2d.DefaultLimitsBracket | network2d.py:140-142 | `lmin < lmax`; each is one unit beyond an extreme component, and every component lies strictly between them |
| Network2d.LoadedPositions | network2d.py:94-122 | one position per row |
| Network2d.LoadedPositionsAt | network2d.py:96-104 | native positions are the file's values times 1e3, with no reference subtracted; projected ones are `UTM(lon, lat) - ref` |
| Network2d.GpsLos | network2d.py:132-138 | with `proj` set, reading a missing vertical column stops the run; otherwise one `ulos` and one `sigmalos` per station |
| Network2d.GpsLosAt | network2d.py:134-138 | with `proj` set, `ulos` and `sigmalos` are the projections of the velocity and of the sigmas; without `proj` both are zero |
| Network2d.InsarLoad | network2d.py:144-171 | every column is cut with the same `[::samp]` (a zero step stops); positions are converted from km only when `theta` is off; `ulos*scale + cst` |
| Network2d.InsarSampleAligned | network2d.py:154-164 | for a positive step, the i-th kept sample takes position, displacement and incidence from file line `i*samp` |
| Network2d.InsarSampleReversed | network2d.py:154-164 | a negative step reads the file from the end |
| Network2d.Network.constructor | network2d.py:26-60 | the options are stored; no point; zero reference |
| Network2d.Network.UpdateProj | network2d.py:62-75 | the frame becomes `UpdateFrame` of the old one, or the run stops |
| Network2d.Network.LoadGps | network2d.py:77-142 | a `dim` other than 2 or 3 exits; on success: positions, scaled velocities and sigmas, `Npoint`, LOS columns and default limits as the functions above |
| Network2d.Network.LoadGpsColumns | network2d.py:94-142 | the column part of `loadgps` in the current frame |
| Network2d.Network.LoadGpsMotion | network2d.py:107-142 | the velocity part of `loadgps` |
| Network2d.Network.LoadGpsDerived | network2d.py:132-142 | the station count, the LOS columns, then the limits |
| Network2d.Network.SetGpsPositions | network2d.py:94-104 | positions as `LoadedPositions`; an EPSG code without a projector stops the run |
| Network2d.Network.SetGpsVelocities | network2d.py:107-125 | every velocity and sigma is multiplied by `scale`; the vertical columns only for `dim == 3` |
| Network2d.Network.SetGpsLos | network2d.py:132-138 | `Npoint` is the number of stations; `ulos`, `sigmalos` as `GpsLos` |
| Network2d.Network.SetGpsLimits | network2d.py:140-142 | `(lmin or lmax) is None` as Python evaluates it: when `lmin` is missing or 0 and `lmax` is missing, BOTH limits become the defaults (a given `lmin` of 0 is overwritten); otherwise both are kept as they were, so a missing `lmin` beside a given `lmax` stays missing |
| Network2d.Network.LoadInsar | network2d.py:144-171 | the dataset takes the columns of `InsarLoad` and `Npoint = len(ulos)`, or the run stops |
| Network2d.Network.CorrectLos | plotPro.py:182-190 | with `theta`, each displacement is multiplied by its pixel's ratio; otherwise `uloscor` is `ulos` |
| ReadGmt.Segments | readgmt.py:40-68 | a successful read has at least one segment in `x` and in `y` |
| ReadGmt.SegmentsShape | readgmt.py:41-50 | there is one segment more than there are lines holding `>`, the same in `x` and `y`, and each segment has as many x as y values |
| ReadGmt.SegmentsInWindow | readgmt.py:61-67 | with both windows, every kept point lies strictly inside them; with `xlim` but no `ylim`, a file that loads keeps no point |
| ReadGmt.SegmentsKeepFileOrder | readgmt.py:61-67 | the segments, read one after another, are exactly the kept points in file order; without `xlim` each point line is kept |
| ReadGmt.SegmentsFail | readgmt.py:46-53 | the read stops exactly when some line breaks it |
| ReadGmt.SegmentsStopEarly | readgmt.py:46-53 | lines after the first breaking line do not change the outcome |
| ReadGmt.InWindow | readgmt.py:61-62 | the open window test; `SegmentsInWindow` states that every kept point passes it |
| ReadGmt.Breaks | readgmt.py:46-62 | a line stops `load` when it is not `>` and does not parse as two floats, needs a projector that was never created, or has its x inside `xlim` with no `ylim`; `SegmentsFail` and `SegmentsStopEarly` state what that does to the read |
| ReadGmt.Keeps | readgmt.py:52-67 | a point line that does not stop the read is kept without `xlim`, and inside the window with it; `SegmentsKeepFileOrder` states that the segments are exactly these lines' points, in file order |
| ReadGmt.Gmt.constructor | readgmt.py:6-22 | no segments, zero reference |
| ReadGmt.Gmt.UpdateProj | readgmt.py:24-37 | the frame becomes `UpdateFrame` of the old one, or the run stops |
| ReadGmt.Gmt.Load | readgmt.py:40-68 | the line loop returns exactly `Segments` of the lines, or stops with its crash |
| Profile.StrikeBasis | plotPro.py:434-436 | `s·n = 0` and `n` is `s` turned a quarter; both are unit vectors when sine and cosine belong to one angle |
| Profile.Extent | plotPro.py:430-431 | the swath box is `w` wide and `l` long, centred on the profile point |
| Profile.Distance | plotPro.py:448 | `ypp`, the coordinate along the normal; `ProjectionInverts` states that with `Offset` it gives back the map position |
| Profile.Offset | plotPro.py:449 | `xpp`, the coordinate along the strike; see `ProjectionInverts` |
| Profile.SwathMask | plotPro.py:451 | the closed swath box test on `xpp`, `ypp`; `SwathSelects` states what a filter with it keeps |
| Profile.ProjectionInverts | plotPro.py:448-449 | for a unit basis the map position is recovered: `p - p0 = xpp*s + ypp*n` |
| Profile.SwathSelects | plotPro.py:451-452 | any co-array filtered with the swath mask holds exactly the entries of the points inside the closed box, in original order |
| Swath.ProjectTopo | plotPro.py:447-452 | `ypp`, `xpp` are the profile coordinates; x, y and z of the swath share one mask |
| Swath.MagnitudeSizes | plotPro.py:524-528 | one marker size per earthquake |
| Swath.MagnitudeSizesOrder | plotPro.py:524-528 | with a non-negative width, sizes are non-negative, the smallest magnitude gets 0, and sizes follow the magnitudes |
| Swath.ProjectSeismicity | plotPro.py:512-528 | coordinates come from the catalogue but are stored on the `seismi` variable; a catalogue without `depth` stops the run; the depth and size columns share the swath mask |
| Swath.ProjectNetwork | plotPro.py:553-554 | `ypp`, `xpp` of a network are its profile coordinates |
| Swath.ProjectGps | plotPro.py:552-578 | one mask for all GNSS columns; parallel and perpendicular components; vertical and LOS columns for `dim == 3`, which stops when they are missing |
| Swath.SelectGps | plotPro.py:556-578 | the swath selection and what is derived from it |
| Swath.SelectGpsColumns | plotPro.py:556-566 | the horizontal columns of the swath stations and their components |
| Swath.DeriveGpsColumns | plotPro.py:558-566 | the positions of the swath stations, then the components |
| Swath.SelectGpsMotion | plotPro.py:558-560 | velocities and sigmas of the swath stations |
| Swath.SelectGpsPlace | plotPro.py:558-560 | map and profile positions of the swath stations |
| Swath.SetGpsComponents | plotPro.py:562-566 | `upar = u·s`, `uperp = u·n`, and the two sigma roots |
| Swath.SelectGpsVertical | plotPro.py:577-578 | the vertical and LOS columns of the swath stations |
| Profile.ComponentsPreserveVelocity | plotPro.py:563-564 | for a unit basis, `upar² + uperp²` is the squared horizontal speed and `upar*s + uperp*n` is the velocity |
| Profile.SigmaSquaresShare | plotPro.py:565-566 | the squares under the two sigma roots are non-negative and add up to `σx² + σy²` |
| Swath.ProjectInsar | plotPro.py:613-620 | the profile coordinates of the scene, and one mask for `uu`, `xx`, `yy`, `xxpp`, `yypp` |
| Common.Arange | plotPro.py:674 | `np.arange`: a zero step raises; otherwise the i-th edge is `start + i*step`, and for a positive step the edges are exactly those below `stop` |
| Common.Digitize | plotPro.py:460 | `np.digitize`: at most `len(bins)`; `DigitizeInterval` states which interval each result stands for |
| Common.Stride | network2d.py:154-164 | `s[::k]`: for a positive step the i-th element is `s[i*k]`, for a negative one `s[len(s) - 1 - i*(-k)]`, with `ceil(len(s)/abs(k))` elements |
| Common.Every | network2d.py:154-164 | `s[::step]` for a positive step: element i is `s[i*step]`, with no index below `len(s)` skipped |
| Common.ArangeIncreasing | plotPro.py:459 | the edges of a positive step are strictly increasing |
| Common.DigitizeInterval | plotPro.py:675 | `np.digitize` gives `j` exactly when `bins[j-1] <= x < bins[j]` (open at either end) |
| Binning.BinWidth | plotPro.py:668-669 | the profile's `nb` when given; otherwise `100*l/n`, and a zero point count raises |
| Binning.Centre | plotPro.py:467 | the emitted distance is the midpoint of `bins[j]` and `bins[j+1]` |
| Binning.BinMembers | plotPro.py:675-678 | the points `np.flatnonzero(inds == j)` gives bin `j`; `BinMembersInterval` states which they are |
| Binning.BinMembersInterval | plotPro.py:675-678 | bin `j` holds exactly the points with `bins[j-1] <= y < bins[j]` (or `y < bins[0]` for `j = 0`), each below its emitted centre by more than half a width |
| Binning.CentredMembers | plotPro.py:688 | the points of the interval bin `j` is plotted at; `CentredMembersInterval` states which they are |
| Binning.CentredMembersInterval | plotPro.py:688 | the grouping matching the emitted centre holds exactly `bins[j] <= y < bins[j+1]`, within half a width of the centre |
| Binning.AsWrittenMisplacesPoints | plotPro.py:674-688 | on the edges `arange(-2, 2, 1)`, the point -1.5 is emitted at -0.5, and 0.5 falls in no bin |
| Binning.TopoUpTo | plotPro.py:461-469 | `distance`, `moy_topo` and `std_topo` stay equal in length, at most one entry per bin |
| Binning.TopoProfileEntries | plotPro.py:464-469 | every entry is the centre, median and spread of a non-empty bin; every non-empty bin emits its centre (the order is `TopoProfileIncreasing`'s, for increasing edges) |
| Binning.TopoProfileIncreasing | plotPro.py:459-467 | for increasing edges the emitted distances strictly increase |
| Binning.BinTopo | plotPro.py:459-469 | the bin loop computes `TopoUpTo` over all bins |
| Binning.ProfileTopo | plotPro.py:447-469 | profile coordinates, swath filter, then `TopoBinned` of the selection |
| Binning.BinTopoColumns | plotPro.py:453-469 | the run stops exactly when the bin width is undefined or zero; the width is handed on; edges every half width from `-l/2` |
| Binning.BinValues | plotPro.py:678-683 | one value per valid pixel of the bin |
| Binning.InsarBinAt | plotPro.py:677-697 | an emitted bin sits at its centre, with `xperp`, `yperp` and `uulos` aligned |
| Binning.InsarBinEmitted | plotPro.py:680-686 | a bin is emitted exactly when more than 10 of its pixels are valid |
| Binning.InsarBinPoint | plotPro.py:680-697 | `Clip`, the percentile filter: each clipped value lies strictly inside the percentile band of its bin's valid values, and comes with the position of one valid pixel of that bin |
| Binning.InsarUpTo | plotPro.py:677-700 | `distance`, `moy_los`, `std_los` equal in length, at most one per bin; `xperp`, `yperp`, `uulos` equal in length |
| Binning.InsarProfileEntries | plotPro.py:677-700 | every entry is an emitted bin, in bin order; every emitted bin contributes its centre |
| Binning.InsarProfileIncreasing | plotPro.py:674-688 | for increasing edges the emitted distances strictly increase |
| Binning.InsarProfilePoints | plotPro.py:690-697 | every concatenated value is a valid pixel of the swath, with that pixel's own position |
| Binning.InsarUpToCollects | plotPro.py:677-697 | the loop's result is the collection of its bins in bin order, each bin computed on its own |
| Binning.CollectSound | plotPro.py:686-694 | every collected entry is the distance, median and spread of one summarised bin |
| Binning.CollectComplete | plotPro.py:686-688 | every summarised bin contributes its distance |
| Binning.CollectIncreasing | plotPro.py:677-688 | bins whose distances increase with the bin index are collected in increasing order |
| Binning.CollectPoints | plotPro.py:695-697 | every collected pixel is a pixel kept by one summarised bin, with that pixel's own position |
| Binning.BinInsar | plotPro.py:674-700 | the bin loop computes `InsarUpTo` over all bins |
| Binning.ProfileInsar | plotPro.py:659-721 | 50 points or fewer leave all lists empty; otherwise the bin width is handed on, and a zero width or fewer than two edges stops the run with its crash; on success the lists are `InsarUpTo` |
| Binning.SceneProfile | plotPro.py:659-721 | the InSAR profile on the scene's values: 50 points or fewer give empty lists and keep the bin width; otherwise the width of `BinWidth` is handed on, a zero width or fewer than two edges stops with its crash and empty lists, and on success the lists are `InsarUpTo` over all bins |
| CrossMatch.WindowValid | plotPro.py:636-637 | the window has a valid value exactly when some valid pixel lies inside it |
| CrossMatch.StationWindow | plotPro.py:633-639 | the loop ends after one pass with `ws = 6000`, the 2000 window and its median |
| CrossMatch.MatchAt | plotPro.py:636-643 | the entry of one station: median and spread of the 2000 window, and the station's own values; `MatchValid` states when they are numbers |
| CrossMatch.MatchValid | plotPro.py:630-643 | `los` is a number exactly when a valid pixel lies within 2000 of the station; so is `sigmalos`; the GNSS fields are the station's own |
| CrossMatch.MatchStations | plotPro.py:630-643 | exactly one tuple per station, in station order |
| CrossMatch.PlottedExactly | plotPro.py:645-646 | the plotted tuples are exactly those with a non-NaN `los`, in order |
| CrossMatch.MatchNetwork | plotPro.py:624-646 | only a three-dimensional network is matched |
| CrossMatch.WindowGrows | plotPro.py:634-639 | a larger window has a valid value whenever a smaller one has |
| CrossMatch.IntendedHalfSize | plotPro.py:634-639 | the window the loop evidently means to end with: 2000, else 4000, else 6000; `IntendedWindowValid` states what it gives |
| CrossMatch.IntendedWindowValid | plotPro.py:634-639 | the widening window has a median exactly when a valid pixel lies within 6000, and stays at 2000 when that window has one |
| CrossMatch.WindowStopsEarly | plotPro.py:633-639 | a station with its only valid pixel 3000 away gets NaN, though the 4000 window has a median |
| Ramp.DesignRow | plotPro.py:771-785 | one column per coefficient, the last one constant 1 |
| Ramp.DesignRowFits | plotPro.py:771-859 | for each `ShapeOf` (`'quad'`, `'cub'`, else linear), a design row times the coefficients is the ramp polynomial `Poly` applied at 798-859 |
| Ramp.BuildDesign | plotPro.py:771-785 | `G` has one row per support distance, and each row is `DesignRow` of that row's distance |
| Ramp.Overlap | plotPro.py:727-742 | the support is aligned, its distances are those of track 1 found in track 2, and it has no more bins than track 2 |
| Ramp.CommonDistances | plotPro.py:732-736 | `Member`, the `np.in1d` masks: for increasing distances, `kk1` and `kk2` select the same values in the same order |
| Ramp.OverlapMatches | plotPro.py:732-737 | each support entry is `moy1 - moy2` and the combined spread `Combined`, `sqrt(σ1² + σ2²)`, of the two bins at its own distance |
| Ramp.Along | plotPro.py:747-763 | an empty track stops the run (`np.max` of nothing); otherwise the support is aligned |
| Ramp.DropNaNExactly | plotPro.py:768-769 | the entries that survive are exactly those with a valid target, in order, with their own distance and spread |
| Ramp.AlongExactly | plotPro.py:751-769 | `Side` keeps the bins with distance > 0 for `"positive"`, < 0 for `"negative"`, all otherwise; the single-track support after NaN removal keeps exactly the bins on the chosen side with a valid median |
| Ramp.WholeTrack | plotPro.py:757-763 | without a side the support is the whole track |
| Ramp.Poly | plotPro.py:802-856 | the ramp `a*y² + b*y + c`, `a*y³ + b*y² + c*y + d` or `a*y + b`; `DesignRowFits` states that it is the design row times the coefficients |
| Ramp.Ramped | plotPro.py:802-856 | the ramp added to an array that may hold NaN, at each entry's own coordinate, with the length kept; `RampedIsDesign` and `RampedUndone` state its values |
| Ramp.RampedReal | plotPro.py:806-849 | the same for the NaN-free `uulos` arrays; `RampedRealUndone` states its values |
| Ramp.RampedIsDesign | plotPro.py:802-856 | each entry moves by its design row times the coefficients, at its own coordinate; NaN entries stay NaN |
| Ramp.RampedUndone | plotPro.py:798-859 | adding the opposite ramp restores the arrays; zero coefficients change nothing |
| Ramp.RampedRealUndone | plotPro.py:806-849 | for the `uulos` arrays too, the opposite ramp restores the array and zero coefficients change nothing |
| Ramp.ApplyRamp | plotPro.py:798-856 | `moy_los` gets the ramp at `distance`, `uulos` at `yperp`, `uu` at `yypp`, and `ulos`, `uloscor` at `ypp`; lengths are kept |
| Ramp.DiffAsWritten | plotPro.py:804 | one residual per valid target; defined whenever the support has no more bins than the track |
| Ramp.DiffIntended | plotPro.py:794 | one residual `temp_los - G·pars` per support entry; `DiffIntendedResidual` states its values |
| Ramp.DiffIntendedResidual | plotPro.py:794 | the intended residuals are `temp_los - G·pars` |
| Ramp.DiffAgreesOnOwnDistances | plotPro.py:761-769 | when the support distances are the track's own, the residuals as written equal the intended ones |
| Ramp.OverlapExample | plotPro.py:732-737 | the overlap of tracks at (0.5, 1.5) and (-0.5, 0.5, 1.5) |
| Ramp.DiffMisaligned | plotPro.py:804 | for those tracks and the ramp `y = x`, the residuals as written are (1, 1) instead of (0, 0) |
| Ramp.FitSupport | plotPro.py:727-763 | the support is aligned and has no more bins than the flattened track |
| Ramp.FlattenTrack | plotPro.py:768-856 | the NaN-free support, the ramp added to the five arrays of the track, and the residuals as written |
| Ramp.Flatten | plotPro.py:723-859 | no `flat` changes nothing; no InSAR scene stops the run; a failed support stops with its crash and changes nothing; otherwise only the second of two scenes, or else the first (`Track`), gets the ramp |

## Left out

- File reading (`np.loadtxt`, `pandas.read_csv`, `open`, `path.exists`): loaders take the parsed columns and lines as parameters.
- Plotting, colour maps, figure layout, `savefig`, logging, `print` and the command-line and configuration handling.
- The projection library: `ProjectionService` stands for pyproj. The incidence-angle trigonometry and the sine and cosine of the strike are inputs.
- The statistics (`np.percentile`, `nanmedian`, `nanstd`, `nanmean` of the InSAR print, `**0.5`) are uninterpreted functions in `Numerics`.
- The least-squares fit (`lstsq`, `fmin_slsqp`) and its zero fallback: the coefficients `pars` are an input of `Ramp.Flatten`.
- The ramp curve `ysp` over `arange(kmin, kmax, 1)`, the residual histogram and `hdi`: they only feed the plots.
- The `shapefile` class only stores its arguments.
- The fault positions `fperp` and the profile outline `xp`, `yp` of the profile loop: they only feed the plots.
- The driver loops are not modelled as one method: reference propagation to every dataset, the load loops and the loop over profiles and datasets. Each step they call is modelled, and the bin width `nb` is handed from one binning to the next as `nbOut`.
- The `savetxt` exports of profile values.
- Common.DigitizeInterval: states `np.digitize` for increasing edges only; the program builds its edges with a positive step.
- Binning.TopoUpTo: heights are reals, so NaN heights are not modelled, nor is the NaN skipping of `np.nanmedian` and `np.nanstd` over a bin. In the program a bin whose heights are all NaN gives NaN; in the model, the median and spread of its heights.
- Model2d.NormalizeStrikeIdempotent: holds for strikes of at most 180 only. The program accepts any strike, and above 180 a second normalisation subtracts 180 again (300 gives 120, then -60).
- Model2d.RescaledDepth: depths are reals, so the NaN skipping of `np.nanmean` is not modelled.
- Ramp.Overlap: operands of unequal lengths are reported as a shape mismatch, although numpy broadcasts a one-element operand. With strictly increasing distances the two selections have equal lengths (`Ramp.CommonDistances`).
- Ramp.Overlap: on a track never binned, the program's lists raise a type error on array indexing. The model reports that case as the empty-reduction stop.
- Ramp.FitSupport: the overlap bounds `kmin`, `kmax` are only checked for existence, because their values feed only the `ysp` curve.
- Network2d.Network.CorrectLos: the ratio `sin(mean incidence) / sin(incidence)` is a per-pixel input.
- NaN positions: coordinates are `real`, so a NaN coordinate cannot occur in the model. In the program it fails both comparisons of the swath mask and the box filter, and the point is silently dropped. `Profile.SwathSelects` and `Model2d.TopoPointsInBox` therefore speak only of points whose coordinates are numbers.
- Dataset fields that only configure plots (colours, widths, names for legends) are not modelled.

## Findings

In three places the program computes something its own output suggests it does not mean.
The profile methods follow the program as written. The corrected member stands beside each
of them, with the intended property proved.

| source | as written | input that shows it | evidently intended | confidence | as-written member | corrected member |
|---|---|---|---|---|---|---|
| plotPro.py:675-688 | bin `j` takes the points `np.digitize` numbers `j`, those in `[bins[j-1], bins[j])`, but is emitted at the centre of `[bins[j], bins[j+1])` | edges `arange(-2, 2, 1)`: the point -1.5 is emitted at -0.5, and the point 0.5 is in no bin | bin `j` should hold `[bins[j], bins[j+1])`, digitize index `j+1`, around its emitted centre | not executed | Binning.BinMembers, Binning.AsWrittenMisplacesPoints | Binning.CentredMembers, Binning.CentredMembersInterval |
| plotPro.py:634-639 | the stop test compares the median with the function `np.isnan`, which is never equal, so the window is always the 2000 square | one valid pixel 3000 east of the station: `los` is NaN | widen the window to 4000 and then 6000 while the median is NaN | not executed | CrossMatch.StationWindow, CrossMatch.WindowStopsEarly | CrossMatch.IntendedHalfSize, CrossMatch.IntendedWindowValid |
| plotPro.py:804 | `diff = temp_los - blos[kk]` indexes the ramp over all bins of the flattened track (the second of two) with the positions of the targets within the support | tracks at (0.5, 1.5) and (-0.5, 0.5, 1.5), medians differing by `y`, ramp `y = x`: residuals (1, 1) | subtract the ramp at each target's own distance: residuals (0, 0) | not executed | Ramp.DiffAsWritten, Ramp.DiffMisaligned | Ramp.DiffIntended, Ramp.DiffIntendedResidual |

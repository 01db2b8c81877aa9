# leaflet-d3: ping queue and hexbin colour domain, modelled in Dafny

leaflet-d3 adds two kinds of layer to a Leaflet map, both drawn with d3.

- **Ping layers** draw a circle for each `ping(datum)`. A circle fades out over `duration` milliseconds. The layer keeps its live pings in a queue, `_data`, in the order they arrived. Two passes maintain that queue:
  - an expiry pass on every ping, which removes the expired head of the queue;
  - a timer-driven update pass, which redraws the due pings, reschedules them through their `nts` deadline, and cuts the queue after its last expired entry.
- **Hexbin layers** bin projected data into hexagons and colour each hexagon by a value. The layer sizes its svg container to the min/max bounds of the data, folded from the 999/-999 sentinels. It gives its colour scale one evenly spaced domain stop per colour, between the ends of the value extent.

The model follows the repository file by file. There is one module per core file, plus shared modules for the logic that the files repeat.

| module | file | what it holds |
|---|---|---|
| `Wrappers` | – | `Option`, `Result`, `Outcome` (a call that passes or throws a `TypeError`) |
| `Geo` | – | positions, layer points, boxes, `L.bounds`, the projection as a function parameter |
| `Scales` | – | a d3 scale reduced to its domain and range |
| `PingQueue` | `src/js/ping/PingLayer.js`, `dist/leaflet-d3.js` | the queue entry, the age and redraw rules, the two passes as functions, the two scan loops, the lemmas about them |
| `HexbinMath` | all hexbin files | the sentinel bounds fold, `d3.extent`, `_linearlySpace`, the largest-bin `reduce`, `_translateBounds` |
| `PingLayer` | `src/js/ping/PingLayer.js` | class `PingLayer` |
| `LeafletD3` | `dist/leaflet-d3.js` | classes `HexbinLayer` and `PingLayer` |
| `HexbinLayer` | `src/js/hexbin/HexbinLayer.js` | class `HexbinLayer` |
| `HexbinLayerLegacy` | `src/js/HexbinLayer.js` | class `HexbinLayer` |
| `LeafletHexbin` | `dist/leaflet-hexbin.js` | class `HexbinLayer` and the `L.hexbinLayer` factory |

How the program's inputs are represented:

- **Time.** `Date.now()` is an integer parameter `now`, read once per public call.
- **Deadlines.** The deadline `nts` is `At(ms)`, or `Never`. `Never` stands for the `Infinity` that `Math.round(now + 1000/0)` gives.
- **Circles.** A circle on the map is a `Handle`. Removing it from the DOM adds its handle to the ghost set `removed`.
- **Hexbin inputs.** The bins d3-hexbin makes of the projected data are an input `seq<Bin>`, and so is the map's `latLngToLayerPoint` (a function `LatLng -> Point`). Every operation that uses them takes them as parameters.
- **Options.** Layer options are a record of `Option`s. `None` keeps the default, as `L.setOptions` does, and the defaults are constants of the model.
- **Errors.** A call that throws in JavaScript returns `Fail(TypeError)` or `Err(TypeError)`, and the model states the state the call leaves behind.

Leaflet calls `onAdd` only for a layer that is not on a map. The `onAdd` of layers whose `_initContainer` answers `null` when a container already exists therefore require `!attached`. Under that requirement, the invariant `attached == hasContainer` always holds.

## Model

| member | source | states |
|---|---|---|
| `PingQueue.RoundHalfUp` | src/js/ping/PingLayer.js:175 | `Math.round` gives the integer within one half of its argument, with halves rounded up |
| `PingQueue.NextTick` | src/js/ping/PingLayer.js:175 | the next redraw time is `Never` exactly when fps is 0. Otherwise it is `Math.round(now + 1000/fps)`: more than `now + 1000/fps - 0.5` and at most `now + 1000/fps + 0.5`. It is no earlier than `now` for a positive fps and no later for a negative one |
| `PingQueue.Visit` | src/js/ping/PingLayer.js:166-176 | a visited entry keeps its datum, position, stamp and circle. Its deadline is renewed exactly when it is alive and either `immediate` holds or its deadline has passed |
| `PingQueue.CutPoint` | src/js/ping/PingLayer.js:151-162 | the cut of the update pass is one past the last expired entry (0 if none), and every entry after it is alive |
| `PingQueue.ExpiredRun` | src/js/ping/PingLayer.js:203-215 | the cut of the expiry pass: every entry before it is expired, and the entry at it (if any) is alive |
| `PingQueue.UpdateLoop` | src/js/ping/PingLayer.js:151-179 | the loop visits every entry in place, and its `maxIndex` is the index of the last expired entry |
| `PingQueue.UpdatePass` | src/js/ping/PingLayer.js:151-184 | the loop followed by the splice leaves exactly the update pass of the queue. An empty queue stays empty, and a queue in time order stays so and loses exactly its expired head |
| `PingQueue.ExpireLoop` | src/js/ping/PingLayer.js:203-215 | the loop stops at the first live entry, and its `maxIndex` is the end of the expired head |
| `PingQueue.ExpiredRunIsLongestHead` | src/js/ping/PingLayer.js:198-221 | the expired head is the only prefix that is all expired and followed by a live entry |
| `PingQueue.AfterUpdateIsLiveSuffix` | src/js/ping/PingLayer.js:181-184 | the update pass keeps exactly the entries after the cut, in order. Each kept entry is alive and is the old entry with only its deadline possibly renewed |
| `PingQueue.AfterUpdateScheduledFromNow` | src/js/ping/PingLayer.js:175 | with a positive fps, every entry the update pass keeps is scheduled no earlier than `now`, or never |
| `PingQueue.ChronologicalUpdateRemovesExactlyExpired` | src/js/ping/PingLayer.js:148-184 | on a queue in time order, the update cut equals the expiry cut, and an entry is removed if and only if it is expired |
| `PingQueue.OutOfOrderUpdateDropsLivePing` | src/js/ping/PingLayer.js:156-160 | out of time order, the update pass drops a live ping whose circle is never removed (the queue stamped 10 then 0, at time 10, duration 5) |
| `PingQueue.AppendKeepsChronological` | src/js/ping/PingLayer.js:127-140 | appending an entry stamped no earlier than every queued one keeps the queue in time order |
| `PingQueue.PassesKeepChronological` | dist/leaflet-d3.js:633-636 | both splices keep the queue in time order |
| `PingQueue.BoundaryAgeSurvivesExpiry` | src/js/ping/PingLayer.js:207 | an entry whose age equals the duration is alive, so it and everything after it survive the expiry pass |
| `PingQueue.FreshPingSurvivesExpiry` | src/js/ping/PingLayer.js:296-297 | with a duration that is not negative, the ping just added survives the expiry pass and ends the queue |
| `PingQueue.ChronologicalUpdate` | dist/leaflet-d3.js:596-636 | on a queue in time order, the update pass is the visited queue after its expired head, and stays in time order |
| `PingQueue.PingPass` | dist/leaflet-d3.js:478-483 | after a ping at a clock that does not run backwards, the queue stays in time order; with a duration that is not negative, it is non-empty and ends in the new ping |
| `PingLayer.PingLayer.constructor` | src/js/ping/PingLayer.js:14-48 | the options default to 800 ms, 32 fps, opacity range [1, 0] and radius range [3, 15]. The accessors are `d[0]`, `d[1]` and 1. Both scales span [0, duration] over their ranges. The layer is detached, idle and has no queue |
| `PingLayer.PingLayer.OnAdd` | src/js/ping/PingLayer.js:51-64 | the layer is on the map and idle |
| `PingLayer.PingLayer.OnRemove` | src/js/ping/PingLayer.js:67-80 | the layer is off the map and its queue is null; `_running` is left as it was |
| `PingLayer.PingLayer.AddPing` | src/js/ping/PingLayer.js:118-141 | on a map, exactly one entry is appended: `[lat, lng]` of the datum, stamp `now`, deadline 0, and the earlier entries are unchanged. Off the map, the call throws after the queue is lazily created |
| `PingLayer.PingLayer.ExpirePings` | src/js/ping/PingLayer.js:198-221 | the queue loses exactly its expired head; those circles are removed, and the rest is unchanged and in order |
| `PingLayer.PingLayer.UpdatePings` | src/js/ping/PingLayer.js:144-195 | the queue becomes the update pass of the old queue, and the expired circles are removed. `_running` equals "queue non-empty", and the result is `!_running`. `_lastUpdate` moves to `now` only while running. A queue in time order stays so, and loses exactly its expired entries |
| `PingLayer.PingLayer.Ping` | src/js/ping/PingLayer.js:295-309 | on a map: append, then the expiry pass. A timer starts (and `_lastUpdate` is set) only if the layer was idle and the queue is non-empty. With a non-negative duration, the layer then runs and the queue ends in the new ping. Off the map, it throws |
| `PingLayer.PingLayer.SetDuration` | src/js/ping/PingLayer.js:227-232 | the setter stores `v` (which the getter then returns) and returns the layer |
| `PingLayer.PingLayer.SetFps` | src/js/ping/PingLayer.js:234-239 | the setter stores `v` and returns the layer |
| `PingLayer.PingLayer.SetLng` | src/js/ping/PingLayer.js:241-246 | the accessor becomes `v`, and the setter returns the layer |
| `PingLayer.PingLayer.SetLat` | src/js/ping/PingLayer.js:248-253 | the accessor becomes `v`, and the setter returns the layer |
| `PingLayer.PingLayer.SetRadiusRange` | src/js/ping/PingLayer.js:255-261 | as written: the option is stored, the call throws, and the radius scale keeps its range |
| `PingLayer.PingLayer.SetRadiusRangeIntended` | src/js/ping/PingLayer.js:255-261 | the option and the radius scale's range both become `v`, and the layer is returned |
| `PingLayer.PingLayer.SetOpacityRange` | src/js/ping/PingLayer.js:263-269 | as written: the option is stored, the call throws, and the opacity scale keeps its range |
| `PingLayer.PingLayer.SetOpacityRangeIntended` | src/js/ping/PingLayer.js:263-269 | the option and the opacity scale's range both become `v`, and the layer is returned |
| `PingLayer.PingLayer.SetRadiusScale` | src/js/ping/PingLayer.js:271-276 | the radius scale becomes `v`, and the layer is returned |
| `PingLayer.PingLayer.SetOpacityScale` | src/js/ping/PingLayer.js:278-283 | the opacity scale becomes `v`, and the layer is returned |
| `PingLayer.PingLayer.SetRadiusScaleFactor` | src/js/ping/PingLayer.js:285-290 | the radius factor becomes `v`, and the layer is returned |
| `Geo.BoundsOf` | src/js/HexbinLayer.js:168 | `L.bounds` of two points is the smallest box holding both |
| `Geo.LatLngsOf` | dist/leaflet-d3.js:358-360 | one position per datum, with the latitude and longitude read through the configured accessors |
| `HexbinMath.Through` | src/js/HexbinLayer.js:182-184 | an accessor read through `geo`/`coord` applies both in turn |
| `HexbinMath.ProjectAll` | dist/leaflet-d3.js:157-163 | each datum paired with the layer point of its `[lng, lat]` (projected as `[lat, lng]`) |
| `HexbinMath.Coords` | dist/leaflet-d3.js:286-287 | one field per element, read through the accessor: a coordinate for the bounds fold, a bin's value for `d3.extent` |
| `HexbinMath.Lower` | dist/leaflet-d3.js:289-290 | the min fold from 999 is at most 999 and at most every element, and it is 999 or an element |
| `HexbinMath.Upper` | dist/leaflet-d3.js:291-292 | the max fold from -999 is at least -999 and at least every element, and it is -999 or an element |
| `HexbinMath.FoldBounds` | dist/leaflet-d3.js:283-295 | the `forEach` loop leaves the min corner at the min folds and the max corner at the max folds of the two coordinates |
| `HexbinMath.GetBoundsBy` | dist/leaflet-d3.js:277-296 | null or empty data give all zeros. Otherwise the box encloses every point; each min end is at most 999 and is a coordinate or 999, each max end is at least -999 and is a coordinate or -999, and min ≤ max |
| `HexbinMath.ValueExtent` | dist/leaflet-d3.js:206-208 | `d3.extent`: both ends are absent exactly when no value is present. Otherwise both are values, and they bound every present value |
| `HexbinMath.ExtentCollapses` | src/js/hexbin/HexbinLayer.js:156-158 | the two ends of `d3.extent` agree if and only if every present value is the same, which holds trivially when none is present |
| `HexbinMath.ZeroedExtent` | src/js/hexbin/HexbinLayer.js:156-160 | the extent with each null end set to 0. It is (0, 0) when no value is present. Otherwise both ends are values, the least and the greatest. The ends agree if and only if all present values are equal |
| `HexbinMath.LinearlySpace` | src/js/hexbin/HexbinLayer.js:241-250 | the loop fills a fresh array of `length` numbers with `from + i * step` |
| `HexbinMath.SpacedEnds` | dist/leaflet-d3.js:298-307 | the spaced domain starts at `from`, rises by equal steps, and (with two or more stops) ends exactly at `to` |
| `HexbinMath.SpacedAscends` | src/js/hexbin/HexbinLayer.js:243-247 | from a lower to a higher end, the spaced domain never falls |
| `HexbinMath.Respaced` | dist/leaflet-d3.js:221-225 | the colour scale keeps its range and gets exactly one domain stop per colour |
| `HexbinMath.RespacedSpans` | src/js/hexbin/HexbinLayer.js:164-168 | the respaced domain runs from the low end to the high end and is ordered when the ends are |
| `HexbinMath.MaxBinSize` | src/js/HexbinLayer.js:135-137 | the `reduce` gives at least every bin's size: 0 when there are no bins, otherwise the size of some bin |
| `HexbinMath.TranslateBoundsEncloses` | src/js/HexbinLayer.js:165-169 | under a Web-Mercator-like projection, the projected north-west corner is the min corner and the projected south-east corner the max corner, and every position inside projects inside |
| `LeafletD3.DomainEnds` | dist/leaflet-d3.js:206-219 | a set floor or ceiling replaces its end. Otherwise the high end is the greatest value, or 0 when none is present. The low end is the least value, but when all values are equal (or none is present) it is one below the high end of the extent, giving `[hi - 1, hi]`. Without overrides, low < high |
| `LeafletD3.RecoloredCoversValues` | dist/leaflet-d3.js:205-225 | with two or more colours and without a floor or ceiling, the colour domain has one stop per colour, rises strictly from its first stop to its last, and spans every bin value |
| `LeafletD3.HexbinLayer.constructor` | dist/leaflet-d3.js:30-81 | the accessors default to `d[0]`, `d[1]` and `d.length`. Floor and ceiling are unset, and the colour range is `['#f7fbff', '#08306b']`. The data is empty, and the layer is off the map |
| `LeafletD3.HexbinLayer.GetBounds` | dist/leaflet-d3.js:277-296 | `_getBounds` over the projected points, as `GetBoundsBy` states |
| `LeafletD3.HexbinLayer.CreateHexagons` | dist/leaflet-d3.js:199-226 | the extent is patched in place (null to 0, separation, floor and ceiling), and the colour domain is respaced between its ends |
| `LeafletD3.HexbinLayer.Redraw` | dist/leaflet-d3.js:149-197 | off the map, nothing changes. On it, the container box is the sentinel bounds of the projected data (zeros when empty), and the scale is recoloured |
| `LeafletD3.HexbinLayer.OnAdd` | dist/leaflet-d3.js:87-98 | the layer is on the map with a container and is drawn |
| `LeafletD3.HexbinLayer.OnRemove` | dist/leaflet-d3.js:104-115 | the map and container are cleared, and the data is untouched |
| `LeafletD3.HexbinLayer.SetData` | dist/leaflet-d3.js:312-316 | null data becomes `[]`, and on a map the scale is recoloured |
| `LeafletD3.HexbinLayer.SetColorScale` | dist/leaflet-d3.js:321-329 | the scale becomes `v`, respaced when on a map |
| `LeafletD3.HexbinLayer.SetValue` | dist/leaflet-d3.js:334-342 | the value accessor becomes `v`, and on a map the scale is recoloured from the new values |
| `LeafletD3.HexbinLayer.GetLatLngs` | dist/leaflet-d3.js:354-361 | one position per datum through the configured accessors |
| `LeafletD3.PingLayer.constructor` | dist/leaflet-d3.js:390-446 | the options default to `d[0]`, `d[1]`, 32 fps and 800 ms. The scales span [0, duration] over [3, 15] and [1, 0]. `_lastUpdate` is the script's load time |
| `LeafletD3.PingLayer.Update` | dist/leaflet-d3.js:596-647 | the same contract as the source tree's `_updatePings` |
| `LeafletD3.PingLayer.OnAdd` | dist/leaflet-d3.js:449-461 | the layer is on the map with a container. The immediate update leaves an empty, idle queue |
| `LeafletD3.PingLayer.OnRemove` | dist/leaflet-d3.js:464-473 | the container, the map and the queue are cleared |
| `LeafletD3.PingLayer.Move` | dist/leaflet-d3.js:564-568 | a map move is an immediate update pass: the queue, the removed circles, `_running`, the return value and `_lastUpdate` are those of `_update(true)`, and a queue in time order stays so and loses exactly its expired head |
| `LeafletD3.PingLayer.Add` | dist/leaflet-d3.js:571-593 | on a map, exactly one entry `[lat, lng]`, stamped `now` with deadline 0, is appended. Off the map, the call throws after the lazy init |
| `LeafletD3.PingLayer.Expire` | dist/leaflet-d3.js:650-673 | the queue loses exactly its expired head |
| `LeafletD3.PingLayer.Ping` | dist/leaflet-d3.js:478-492 | the same contract as the source tree's `ping` |
| `LeafletD3.PingLayer.GetCount` | dist/leaflet-d3.js:498-500 | the length of the queue; the call throws exactly while there is no queue |
| `LeafletD3.PingLayer.SetRadiusScale` | dist/leaflet-d3.js:413-420 | the radius scale becomes `v`, and the layer is returned |
| `LeafletD3.PingLayer.SetOpacityScale` | dist/leaflet-d3.js:425-432 | the opacity scale becomes `v`, and the layer is returned |
| `LeafletD3.AddThenPing` | dist/leaflet-d3.js:498-500 | after `onAdd` the count is 0, and after a ping with a non-negative duration it is at least 1 |
| `HexbinLayer.DomainEnds` | src/js/hexbin/HexbinLayer.js:155-162 | a set floor or ceiling replaces its end. Otherwise the low end is the least value and the high end the greatest, and each is 0 when no value is present. Without overrides, low ≤ high |
| `HexbinLayer.DomainCollapsesOnEqualValues` | src/js/hexbin/HexbinLayer.js:159-165 | with no separation step, the domain collapses to one point if and only if all present values are equal |
| `HexbinLayer.LatLngsAsWritten` | src/js/hexbin/HexbinLayer.js:257 | `_latlngs` as written: entry i is `L.latLng(d[0], d[1])`, with the same length as the data |
| `HexbinLayer.LatLngsAsWrittenSwapsAxes` | src/js/hexbin/HexbinLayer.js:257 | under the default accessors, the datum `[10, 20]` is reported at latitude 10 instead of 20 |
| `HexbinLayer.LatLngsAsWrittenAgreesOnlyOnDiagonal` | src/js/hexbin/HexbinLayer.js:255-260 | the written positions match the accessor positions if and only if every datum has equal coordinates |
| `HexbinLayer.HexbinLayer.constructor` | src/js/hexbin/HexbinLayer.js:8-43 | the default options, and no data and no `_latlngs` |
| `HexbinLayer.HexbinLayer.GetBounds` | src/js/hexbin/HexbinLayer.js:218-239 | `_getBounds` over the projected points: zeros for null or empty data, otherwise the sentinel bounds |
| `HexbinLayer.HexbinLayer.CreateHexagons` | src/js/hexbin/HexbinLayer.js:149-168 | the extent is patched (null to 0, then floor and ceiling), and the domain is respaced with one stop per colour |
| `HexbinLayer.HexbinLayer.Redraw` | src/js/hexbin/HexbinLayer.js:97-147 | off the map, nothing changes. On it, the container box is the sentinel bounds of the projected data, and the scale is recoloured |
| `HexbinLayer.HexbinLayer.OnAdd` | src/js/hexbin/HexbinLayer.js:45-56 | the layer is on the map with a container and is drawn |
| `HexbinLayer.HexbinLayer.OnRemove` | src/js/hexbin/HexbinLayer.js:58-69 | the container and map are cleared, and the data is preserved |
| `HexbinLayer.HexbinLayer.SetData` | src/js/hexbin/HexbinLayer.js:255-260 | null data becomes `[]`. The positions have the data's length, each read through the configured accessors (the corrected `_latlngs`). The scale is recoloured on a map |
| `HexbinLayer.HexbinLayer.SetColorScale` | src/js/hexbin/HexbinLayer.js:265-273 | the scale becomes `v`, respaced when on a map |
| `HexbinLayer.HexbinLayer.SetValue` | src/js/hexbin/HexbinLayer.js:278-286 | the value accessor becomes `v`, and on a map the scale is recoloured from the new values |
| `HexbinLayer.RemoveThenAdd` | src/js/hexbin/HexbinLayer.js:67-68 | a layer removed and added again keeps its data, and redraws with one domain stop per colour |
| `HexbinLayerLegacy.SizeDomain` | src/js/HexbinLayer.js:135-137 | the domain is `[0, m]`, where m is at least every bin's size, 0 without bins, and otherwise some bin's size |
| `HexbinLayerLegacy.TranslateBoundsOf` | src/js/HexbinLayer.js:165-169 | `L.bounds` of the projected corners `(min lng, max lat)` and `(max lng, min lat)`. For ordered bounds under a Web-Mercator-like projection these are the min and max corners, enclosing every projected inner position |
| `HexbinLayerLegacy.HexbinLayer.constructor` | src/js/HexbinLayer.js:6-27 | the accessors default to `d.geo`, `d[0]` and `d[1]`, the colour range has its default, and the data is empty |
| `HexbinLayerLegacy.HexbinLayer.GetBounds` | src/js/HexbinLayer.js:171-193 | zeros for null or empty data, otherwise the sentinel bounds of `[lng(geo(d)), lat(geo(d))]` |
| `HexbinLayerLegacy.HexbinLayer.CreateHexagons` | src/js/HexbinLayer.js:121-137 | the `reduce` loop sets the domain to `[0, largest bin]`. With null data, the call throws and the scale is untouched |
| `HexbinLayerLegacy.HexbinLayer.Redraw` | src/js/HexbinLayer.js:79-119 | off the map, nothing changes. On it, the geographic bounds (zeros for null or empty data), the projected screen box, then the hexagons |
| `HexbinLayerLegacy.HexbinLayer.OnAdd` | src/js/HexbinLayer.js:29-40 | the layer is on the map with a container. The draw throws exactly when the data is null |
| `HexbinLayerLegacy.HexbinLayer.OnRemove` | src/js/HexbinLayer.js:42-51 | as written: the container, the map and the data are nulled |
| `HexbinLayerLegacy.HexbinLayer.OnRemoveKeepingData` | src/js/HexbinLayer.js:42-50 | the container and the map are cleared, and the data is kept |
| `HexbinLayerLegacy.HexbinLayer.Update` | src/js/HexbinLayer.js:198-201 | null data becomes `[]`, and the redraw does not throw |
| `HexbinLayerLegacy.RemoveThenAdd` | src/js/HexbinLayer.js:50 | as written, adding a removed layer back throws a `TypeError` |
| `HexbinLayerLegacy.RemoveThenAddKeepingData` | src/js/HexbinLayer.js:29-51 | with the data kept, both draws pass, the data survives, and the domain is `[0, largest bin]` |
| `LeafletHexbin.SizeDomain` | dist/leaflet-hexbin.js:141-143 | the domain is `[0, m]` with m the size of the largest bin, and 0 without bins |
| `LeafletHexbin.TranslateBoundsOf` | dist/leaflet-hexbin.js:168-172 | `L.bounds` of the projected corners `(min x, max y)` and `(max x, min y)`, which are its min and max corners for ordered bounds under a Web-Mercator-like projection |
| `LeafletHexbin.HexbinLayer.constructor` | dist/leaflet-hexbin.js:8-31 | the accessors default to `d.geo`, `d[0]` and `d[1]`, and the data is empty |
| `LeafletHexbin.HexbinLayer.GetBounds` | dist/leaflet-hexbin.js:174-196 | zeros for null or empty data, otherwise the sentinel bounds of `[x(coord(d)), y(coord(d))]` |
| `LeafletHexbin.HexbinLayer.CreateHexagons` | dist/leaflet-hexbin.js:127-143 | the domain is set to `[0, largest bin]`; the call throws on null data |
| `LeafletHexbin.HexbinLayer.Redraw` | dist/leaflet-hexbin.js:88-125 | the geographic bounds, the projected box, then the hexagons |
| `LeafletHexbin.HexbinLayer.OnAdd` | dist/leaflet-hexbin.js:33-44 | the layer is on the map with a container. The draw throws exactly when the data is null |
| `LeafletHexbin.HexbinLayer.OnRemove` | dist/leaflet-hexbin.js:46-55 | as written: the container, the map and the data are nulled |
| `LeafletHexbin.HexbinLayer.OnRemoveKeepingData` | dist/leaflet-hexbin.js:46-53 | the container and the map are cleared, and the data is kept |
| `LeafletHexbin.HexbinLayer.Update` | dist/leaflet-hexbin.js:62-65 | null data becomes `[]`, and the redraw does not throw |
| `LeafletHexbin.RemoveThenAdd` | dist/leaflet-hexbin.js:54 | as written, adding a removed layer back throws a `TypeError` |
| `LeafletHexbin.RemoveThenAddKeepingData` | dist/leaflet-hexbin.js:33-55 | with the data kept, both draws pass and the data survives |
| `LeafletHexbin.Factory` | dist/leaflet-hexbin.js:200-201 | as written: the layer has every default option whatever `options` says |
| `LeafletHexbin.FactoryDropsColorRange` | dist/leaflet-hexbin.js:200-201 | a colour range asked for in `options` is replaced by the default one |
| `LeafletHexbin.FactoryIntended` | dist/leaflet-hexbin.js:200-201 | the layer is built with the given options |

## Left out

- DOM and svg rendering is not modelled: selections, joins, transitions, attributes and styles, the container's size and margins, and circle radius and opacity. A container is present or absent. A circle is a handle, and its removal is an entry in `removed`.
- d3-hexbin and the `hexagon()` path strings are a library that is not shown here. Its bins are an input.
- Leaflet's `latLngToLayerPoint`, `getBounds`, `getPanes` and `L.GeoJSON` are calls into Leaflet, so the projection is a function parameter. `ScreenMonotone` states what a Web-Mercator map provides where a lemma needs it.
- d3 scale interpolation is not modelled: the power exponent 0.35, clamping, colour interpolation, and the `fill` option. A scale is its domain and its range.
- `d3.timer` is not modelled. The loop of update passes it drives is a caller of `UpdatePings`/`Update`, and `timers` counts the timers started. In d3 v4 a timer stops only through `timer.stop()`, and neither layer calls it.
- `_fps`, `getActualFps` and `getFps` are a floating-point diagnostic that can divide by zero.
- `map.on`/`map.off` event wiring and `console.log` are not modelled. A map move in `dist/leaflet-d3.js` is `LeafletD3.PingLayer.Move` (`_move`). In `src/js/ping/PingLayer.js` the move handler is `_updateContainer` (lines 62 and 96-98), which is `_updatePings(true)`, so it is `PingLayer.PingLayer.UpdatePings` with `immediate` true. The hexbin layers' `moveend` redraws are calls of `Redraw`.
- All the `Date.now()` reads within one public call are taken to be the same instant `now`.
- Numbers are exact reals. NaN and double rounding are not modelled, so `_linearlySpace` reaching `to` exactly holds over the reals only.
- Data elements are modelled in the shapes the default accessors read: `[d0, d1]` arrays, and `{geo: [lng, lat]}` objects for the first hexbin layers. Custom accessors over those shapes are modelled; elements of other shapes are not.
- The getters (`duration()`, `fps()`, `lng()`, `lat()`, `radiusRange()`, `opacityRange()`, `radiusScale()`, `opacityScale()`, `radiusScaleFactor()`, `colorScale()`, `value()`, and `data()` of the ping layer) return a field. They are the fields of the classes.
- The hexbin `onmouseover`, `onmouseout` and `onclick` setters, the `_dispatch` events and `dispatch()`, `toGeoJSON`, `addTo`, and the `radius`, `opacity`, `duration`, `padding`, `minZoom`, `maxZoom` and `pointerEvents` options only affect drawing or events.
- `_getCircleCoords`' subtraction of the map bounds (`_mapBounds`) and the svg sizing of `_updateContainer` in `dist/leaflet-d3.js` are drawing only.
- JavaScript arrays are values here. Aliasing between a caller's data array and `_data` is not modelled.

## Findings

| source | as written | input that shows it | evidently intended | confidence | as-written member | corrected member |
|---|---|---|---|---|---|---|
| src/js/ping/PingLayer.js:258 | `this._scale.radius().range(v)` calls the scale with no argument, which yields a number, and then calls `.range` on that number | `layer.radiusRange([2, 10])` | `this._scale.radius.range(v)`: the scale's range becomes `v`, and the layer is returned | high, not executed | `PingLayer.PingLayer.SetRadiusRange` | `PingLayer.PingLayer.SetRadiusRangeIntended` |
| src/js/ping/PingLayer.js:266 | `this._scale.opacity().range(v)`, the same mistake | `layer.opacityRange([1, 0.5])` | `this._scale.opacity.range(v)` | high, not executed | `PingLayer.PingLayer.SetOpacityRange` | `PingLayer.PingLayer.SetOpacityRangeIntended` |
| src/js/hexbin/HexbinLayer.js:257 | `_latlngs` is built with `L.latLng(d[0], d[1])`, while the default accessors read `d[0]` as the longitude | the datum `[10, 20]` under the default accessors | positions read through the `lat`/`lng` accessors, as `getLatLngs` does in `dist/leaflet-d3.js` | high, not executed | `HexbinLayer.LatLngsAsWrittenSwapsAxes` | `HexbinLayer.HexbinLayer.SetData` |
| src/js/HexbinLayer.js:50 | `onRemove` sets `_data` to null, so the `_redraw` of the next `onAdd` throws in `_data.map` | add the layer, remove it, add it again | keep the data, as the later version at src/js/hexbin/HexbinLayer.js:67-68 does | high, not executed | `HexbinLayerLegacy.RemoveThenAdd` | `HexbinLayerLegacy.RemoveThenAddKeepingData` |
| dist/leaflet-hexbin.js:54 | the same `_data = null` in `onRemove` | add the layer, remove it, add it again | keep the data | high, not executed | `LeafletHexbin.RemoveThenAdd` | `LeafletHexbin.RemoveThenAddKeepingData` |
| dist/leaflet-hexbin.js:200-201 | `L.hexbinLayer(data, options)` calls `new L.HexbinLayer(data, options)`, but `initialize` takes only `options`, so `data` is merged as the options and `options` is dropped | `L.hexbinLayer([], {colorRange: ['#000000', '#ffffff']})` | `new L.HexbinLayer(options)` | medium, not executed | `LeafletHexbin.FactoryDropsColorRange` | `LeafletHexbin.FactoryIntended` |

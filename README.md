# Carbon footprint of outdoor surface compositions

This project models the calculation engine of a small calculator. The calculator compares
the carbon footprint (kg CO₂e) of outdoor pavement compositions. A composition has a name,
a surface in m² and a stack of layers, listed top to bottom. Each layer has a material and
a thickness in centimetres.

The model covers five parts:

- **Catalog** (`catalog.dfy`). This is the fixed reference data:
  - each material's density and impact (per kg; per m² for the geotextile);
  - the process constants for excavation, sand and cement joints, asphalt binder, aggregate, and transport and laying;
  - the list of jointed materials and the list of natural stones;
  - the cement table and the stone-origin table;
  - the nine base templates.

  Materials are an enumeration. The catalog keys are kept as strings, so the spelling of the jointed list can be compared with them.
- **Resolution** (`resolution.dfy`). The layer editor stores an effective impact for each layer, computed from the material and the values entered for it:
  - stone origin;
  - a free-form value for the undefined material (entered per m³);
  - recycled and binder rates of a bituminous mix;
  - cement family;
  - grid void ratio.

  This is a pure function of the material and an `Overrides` record. In that record, a missing entry stands for the field's initial value. The function follows the source's chain of tests. Its contract ties it to an independent rule table indexed by material kind. The editor's pass over all the layers of a composition, which the page makes on every run, is `EditedLayers`.
- **Footprint** (`footprint.dfy`). The footprint of one layer per m² (`empreinte_couche`). The footprint of a stack per m² (`empreinte_totale`), which is the sum of its layers plus the excavation of its non-geotextile depth.
- **Compositions** (`compositions.dfy`). The insertion-ordered collection of compositions is a `Session` object holding a sequence of (identifier, composition) pairs. Its methods are the user's edits:
  - create from a template;
  - rename;
  - set the surface;
  - add a layer on top or at the bottom;
  - edit a layer, or run the editor over all of a composition's layers;
  - remove a layer;
  - delete;
  - duplicate.
- **Comparison** (`comparison.dfy`). Two loops:
  - The comparison table: one row per composition and a Total row that divides the summed totals by the summed surfaces.
  - The stacked chart: each composition's layers are drawn bottom-up, each material gets a colour the first time it is met, and an absolute total per composition and the largest of them are computed. The source never reads those totals or their maximum.

`sums.dfy` holds the generic sum over a sequence, with its append, permutation and sign laws.
`wrappers.dfy` holds `Option` and `Result`.

Three behaviours of the code are worth noting:

- **Per-m² value of a row.** The row's per-m² value is the stack footprint itself (app2.py:329), not the row total divided by the surface. So a row with zero surface is not an error. Only the Total row divides. It does so unconditionally (app2.py:336), so it fails exactly when the summed surface is zero, which includes an empty collection. The model returns `Err(DivisionByZero)` in that case.
- **Jointed list.** The jointed list spells the precast paver "Pavé béton préfabriqué" (app2.py:91). The catalog key is "Pavé béton préfabriquée" (app2.py:22). So only the three natural-stone materials get the joint term and the origin adjustment. The precast paver gets neither.
- **Geotextile.** A geotextile layer's footprint is its fixed catalog impact, whatever its thickness. The editor also sets its thickness to 0, and it never counts towards the excavation depth.

## Model

| member | source | states |
|---|---|---|
| Catalog.CatalogKeys | app2.py:18-32 | The selector offers every material exactly once, and distinct materials have distinct catalog keys |
| Catalog.Density | app2.py:18-32 | Every density is at least 1 kg/m³; exactly the geotextile and the undefined material have the placeholder density 1 |
| Catalog.Impact | app2.py:18-32 | Catalog impacts are non-negative, and only the undefined material has impact 0 |
| Catalog.IsLie | app2.py:132 | The jointed test never holds for the precast concrete paver; that it is exactly the source's key test is Catalog.JointedAreStones |
| Catalog.JointedAreStones | app2.py:90-101 | A material's key is in the jointed list iff it is in the stone list iff the material is a natural stone; the precast paver's key is not in the jointed list, and no catalog key equals the misspelt entry |
| Catalog.JointImpact | app2.py:133-134 | A joint's impact is positive: the sand constant for sand joints, the cement constant for cement joints |
| Catalog.CementImpact | app2.py:103-110 | Cement-family impacts lie between 0.080 and 0.118; only the standard family has the catalog concrete's impact |
| Catalog.ImpTrans | app2.py:112-118 | Origin adjustments lie between −0.0848 and +0.0267; only the mixed origin adds nothing |
| Catalog.Template | app2.py:43-88 | Every template has 1 to 4 layers; each layer carries only a material and a thickness; no layer is a geotextile; every thickness is between 1 and 30 cm |
| Resolution.BlendImpact | app2.py:265 | For binder rates from 0 to 100 %, the bituminous impact is at least the transport term when at most 100 % is recycled, and at most the binder impact plus the transport term when the recycled rate is non-negative |
| Resolution.BlendFullyRecycled | app2.py:265 | A fully recycled bituminous mix keeps only the transport and laying impact |
| Resolution.BlendAntitone | app2.py:251-265 | For any non-negative binder rate, raising the recycled rate never raises the mix's impact |
| Resolution.VoidImpact | app2.py:282 | For void ratios from 0 to 100 %, the grid's impact lies between 0 and its catalog impact |
| Resolution.VoidImpactRange | app2.py:275-282 | A grid with no voids has the catalog impact; a fully void grid has none; more voids never mean more impact |
| Resolution.JointedKind | app2.py:227 | The jointed rule applies exactly to the materials whose key is in the jointed list |
| Resolution.ResolveImpact | app2.py:225-282 | The source's chain of material tests gives the same impact as the rule table by material kind: stones get their impact plus the origin adjustment; the undefined material gets the entered value (default 100); the bituminous mix gets the blend formula (defaults 0 % recycled, 5.6 % binder); concrete gets the cement family's impact; the grid gets the void-reduced impact (default 40 %); every other material keeps its catalog impact |
| Resolution.ResolveDefaults | app2.py:242-282 | With every entry left at its default, only the undefined material (100), the bituminous mix (blend at 0 % and 5.6 %) and the grid (60 % of its impact) differ from the catalog |
| Resolution.SwissPaver | app2.py:232-238 | A stone paver from Switzerland has exactly the impact without its built-in transport share, 0.0957 |
| Resolution.EditedLayer | app2.py:207-229 | The edited record has the chosen material; the entered thickness, or 0 for the geotextile; the resolved impact; and the chosen joint (default sand) for jointed materials, with any other joint entry kept as it was |
| Resolution.EditIdempotent | app2.py:205-282 | Editing a layer again with the same entries changes nothing, so a page run with unchanged fields leaves every layer as it is |
| Resolution.EditedLayers | app2.py:205-282 | The editor's pass keeps the number of layers, and layer k gets the k-th chosen material and the impact resolved from the k-th entries |
| Resolution.DefaultPass | app2.py:205-282 | With every field at its initial value, each layer keeps its material and gets the impact resolved at the defaults |
| Footprint.EmpreinteCouche | app2.py:123-137 | A geotextile layer's footprint is 1.3 whatever its thickness or stored impact; any other layer's footprint is its volumetric factor (impact × density, plus 5 % of the joint's impact when jointed) times its thickness in metres |
| Footprint.DepthOf | app2.py:141 | A layer's excavation depth is never negative |
| Footprint.EmpreinteTotale | app2.py:139-143 | The excavation term never lowers a stack's footprint below the sum of its layers, and an empty stack costs nothing |
| Footprint.ThicknessLinear | app2.py:126 | Outside the geotextile, a layer's footprint is 0 at 0 cm and additive in the thickness |
| Footprint.MissingFields | app2.py:126-135 | A missing impact entry counts as 0 and a missing joint entry as sand |
| Footprint.JointDifference | app2.py:132-135 | For a jointed layer, cement joints cost exactly (cement − sand impact) × 0.05 × thickness / 100 more than sand joints |
| Footprint.PrecastPaverUnjointed | app2.py:132-135 | The precast concrete paver's footprint is impact × 2300 × thickness / 100, with no joint term whatever joint its record holds |
| Footprint.TotalAppend | app2.py:139-143 | The footprint of two stacks put together is the sum of their footprints, excavation included |
| Footprint.TotalPermutation | app2.py:139-143 | A stack's footprint does not depend on the order of its layers |
| Footprint.GeotextileInsertion | app2.py:139-143 | Inserting a geotextile anywhere in a stack adds nothing to the excavation depth and exactly 1.3 to the footprint |
| Footprint.GravelScenario | app2.py:139-143 | One 20 cm gravel layer at its catalog impact costs 5.369 kg CO₂e per m², excavation included |
| Footprint.GravelTemplateAtDefaults | app2.py:54-58 | A fresh gravel composition costs 0.172 per m² (excavation only) until the layer editor runs, and 10.738 once the editor has run with every field at its initial value |
| Sums.SumAppend | app2.py:140-141 | A sum over a concatenation is the sum of the two sums |
| Sums.SumPermutation | app2.py:140-141 | A sum does not depend on the order of its terms |
| Compositions.Copy | app2.py:309-314 | A copy's name is the original name followed by " (copie)", and it has the same surface and layers |
| Compositions.Session.constructor | app2.py:148-150 | The session starts with no compositions |
| Compositions.Session.AddComposition | app2.py:162-168 | A new composition is appended under a fresh identifier, with the template's name, surface 1 m² and the template's layers; identifiers stay unique and surfaces non-negative |
| Compositions.Session.Rename | app2.py:189 | Only the named composition's name changes, in place |
| Compositions.Session.SetSurface | app2.py:192-197 | Only the named composition's surface changes, to a non-negative value, in place |
| Compositions.Session.AddLayerTop | app2.py:201-202 | A 5 cm undefined layer is put on top of the named composition's stack; nothing else changes |
| Compositions.Session.AddLayerBottom | app2.py:295-296 | A 5 cm undefined layer is put at the bottom of the named composition's stack; nothing else changes |
| Compositions.Session.EditLayer | app2.py:205-282 | Layer `idx` of the named composition becomes the edited record; every other layer and composition is unchanged |
| Compositions.Session.RunEditor | app2.py:205-282 | Every layer of the named composition becomes its edited record, in order; every other composition is unchanged |
| Compositions.Session.RemoveLayer | app2.py:288-289 | Exactly layer `idx` is removed from the named composition, and the others keep their order |
| Compositions.Session.Delete | app2.py:301-302 | The identifier is gone, and the other compositions keep their order |
| Compositions.Session.Duplicate | app2.py:305-314 | A copy of the named composition is appended under a fresh identifier, and the original is unchanged |
| Comparison.RowOf | app2.py:329-331 | A row carries the composition's name and surface; its per-m² value is the stack footprint, its total is that value times the surface |
| Comparison.RowPerM2IsQuotient | app2.py:329-331 | Wherever the surface is not zero, a row's per-m² value is its total divided by its surface |
| Comparison.Compare | app2.py:325-336 | The table fails (division by zero) exactly when the summed surface is 0; otherwise it has one row per composition in collection order, holding the name, the surface, footprint × surface and the footprint per m², then a Total row with the summed surfaces, the summed totals and their quotient |
| Comparison.SumSurfaceZero | app2.py:333-336 | With non-negative surfaces, the summed surface is non-negative and is 0 exactly when every surface is 0, so one non-empty surface makes the Total row defined |
| Comparison.SumTotalBounds | app2.py:328-333 | With non-negative surfaces, if every per-m² value lies in [lo, hi] then the summed total lies between lo and hi times the summed surface |
| Comparison.TotalPerM2IsAverage | app2.py:336 | The Total row's per-m² value is a surface-weighted average, between the smallest and largest per-m² values of the rows |
| Comparison.TotalRowOrderIndependent | app2.py:328-336 | The Total row's sums do not depend on the order of the compositions |
| Comparison.DeleteRemovesRow | app2.py:301-302 | Deleting a composition removes exactly its total and its surface from the Total row's sums |
| Comparison.DuplicateAddsRow | app2.py:305-314 | A duplicate has the same per-m² value and total as its original, and adds them once more to the Total row's sums |
| Comparison.StackTop | app2.py:376-389 | The top of a drawn bar is exactly the sum of its layers' footprints |
| Comparison.FirstSeen | app2.py:380-381 | There are never more colours than materials met |
| Comparison.FirstSeenColours | app2.py:380-381 | Exactly the materials met have a colour; colours are distinct and are the first n counter values |
| Comparison.FirstSeenStable | app2.py:380-381 | A colour, once given, is kept whatever is met afterwards |
| Comparison.FirstSeenAt | app2.py:380-381 | A material met first at position k gets the number of distinct materials met before it |
| Comparison.StackLayers | app2.py:376-389 | Walking a stack bottom-up draws each layer on top of the footprints of the layers below it, the running height ends at the stack's layer footprint, and new materials get the next colours |
| Comparison.DrawComposition | app2.py:370-393 | One composition is drawn with its name and stack, and its absolute total is its layer footprint times its surface |
| Comparison.MaxTotal | app2.py:362-394 | The running maximum is at least 0 and at least the last total |
| Comparison.MaxTotalBounds | app2.py:391-394 | The running maximum of the totals is at least 0, bounds every absolute total, and is either 0 or one of the totals |
| Comparison.Breakdown | app2.py:369-394 | Every composition is drawn in collection order with its name, stack and absolute total; the computed (and unused) maximum is the running maximum of the totals; each material's colour is the number of distinct materials drawn before it |
| Comparison.ChartOmitsExcavation | app2.py:391-392 | A chart total is the table total minus the excavation term times the surface |

## Left out

- The web interface is outside the model: widgets, tabs, buttons, table formatting and the widget keys (including keys reused between widgets). Values the user enters arrive as `Overrides` fields and as method arguments.
- Plotting and the palette are outside the model. A colour is the index the source's counter would hand out. The palette has 20 colours and the catalog 13 materials, so the palette never wraps and distinct indices are distinct colours.
- Identifier generation is outside the model. A fresh identifier is a precondition of `AddComposition` and `Duplicate`.
- Floating point is outside the model. All arithmetic is on exact reals, so rounding is not modelled.
- Compositions.Session.Delete and Compositions.Session.Duplicate: the model does not capture what happens when either runs inside the page's loop over the collection. The source changes the dictionary while iterating over it. For any composition but the last tab, the next step of that iteration raises an error that aborts the rest of the page. For the last tab, the iteration ends on the tabs first, so no error is raised and the table is built with the edit applied. Both are modelled as single edits.
- Compositions.Session.RemoveLayer: the model does not capture a removal inside the layer editor's `enumerate` loop, which skips the layer that follows. Each removal is modelled as a single edit.
- The source's `epaisseur_cm` entry is always present, so thickness is a `nat` field. A missing thickness is not modelled.
- The densities in the cement table are not used, because they are all 2350 and the computation reads the catalog density.
- The bituminous rates are not bounded above, as in the source. A recycled rate above 100 gives a blend below the transport term.
- Duplication copies each layer record. Layers are values here, so aliasing between copies cannot arise. So edits to a duplicate never reach the original.
- Comparison.Compare: takes the collection as it stands and does not model the page's order of work. On the page, the layer editor (`Compositions.Session.RunEditor`) has already run over every layer of every composition before the table is built, so template layers are priced with their resolved impact (see `Footprint.GravelTemplateAtDefaults`). The exception is a layer appended at the bottom in the same run, which has no impact entry and is priced at 0 for that run.
- Comparison.Breakdown: runs whatever `Compare` returned. In the source, the division error of the Total row stops the page, so no chart is drawn when the summed surface is 0.

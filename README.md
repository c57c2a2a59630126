# Alpaca avatar generator — a Dafny model of its selection state and layered rendering

The avatar generator lets a user pick one option in each of eight categories:
background colour, fur colour, ears, hair, eyes, mouth, clothes and
accessory. It draws a layered vector picture of an alpaca from the current
selection. Three actions replace the selection: picking an option,
randomising every category, and resetting to the startup selection.

This project models:

- **The option registry** (module `Registry`, `registry.dfy`). It holds the
  closed `Category` enumeration, the option table of each category, the
  default selection, and what a total and a valid selection are. It also
  holds the draw oracle: a vector of indices, one per category, that stands
  in for the random numbers. The option table is kept by column: `Ids`
  holds each category's ids and `Labels` its display labels, and `Options`
  pairs them into the `{id, label}` records the source lists.
- **The six layer renderers** (module `Layers`, `layers.dfy`). Each one is a
  total function from a variant string, and for ears and hair also a fur
  colour, to a fragment. A fragment is a list of circles, ellipses,
  rectangles, polygons, paths and lines, with integer geometry and colour
  strings that are never checked.
- **The composed preview** (module `Preview`, `preview.dfy`). It turns a
  selection into eleven layers in a fixed back-to-front order, including the
  fixed 12-dot background pattern. It also defines the picture's document
  (painting) order as the concatenation of the layers' shapes.
- **The component state** (module `Avatar`, `avatar.dfy`). A class
  `Generator` has one field, `state : map<Category, string>`, and methods
  `Pick`, `PickOption`, `Randomize` and `Reset` that replace it.
  `Randomize` is a loop over the categories, like the source's `forEach`.

Main results:

- Every category's option list is non-empty, and its ids are pairwise
  distinct.
- The default selection draws the first option in every category, so it is
  valid.
- `Pick` changes exactly one key. `Randomize` and `Reset` produce a state
  that does not depend on the state before, which is valid.
- Draw vectors and valid selections correspond one to one. So independent
  uniform draws give a uniformly distributed selection.
- "none" empties the hair, clothes and accessory layers, and nothing else
  does. Unknown variants render exactly like each renderer's fallback.
- The scene paints its layers in the fixed order. Each layer depends only on
  the categories it names. Different valid selections give different
  scenes. The clothes are the last shapes painted.

The code and the design documentation disagree in one place. The in-app
tips text lists the order "Ears → Hair → Face", but the code paints body,
neck and face before the ears. The model follows the code.

## Model

| member | source | states |
|---|---|---|
| `Registry.Position` | src/App.tsx:66-104 | every category has a position in the option table's key order, and `Categories` holds that category there |
| `Registry.CategoriesEnumerate` | src/App.tsx:21-29 | the key order lists each of the eight categories exactly once |
| `Registry.Ids` | src/App.tsx:66-104 | the ids each category registers, in display order; there is at least one |
| `Registry.Labels` | src/App.tsx:66-104 | every category has exactly one display label per registered id |
| `Registry.Options` | src/App.tsx:66-104 | every category offers at least one option, the i-th carrying the i-th id and the i-th label |
| `Registry.IdsDistinct` | src/App.tsx:66-104 | no id is registered twice within a category |
| `Registry.DefaultIsFirstOptions` | src/App.tsx:107-116 | the default selection is exactly what drawing index 0 in every category yields |
| `Registry.DefaultValid` | src/App.tsx:107-116 | the default selection is total and each value is registered for its category |
| `Registry.Draw` | src/App.tsx:62-63 | an in-range draw picks one of the category's registered ids |
| `Registry.Drawn` | src/App.tsx:275-279 | a full draw vector yields a valid selection, and the j-th draw decides the j-th category in key order |
| `Registry.DrawnOnto` | src/App.tsx:275-279 | every valid selection is the outcome of some in-range draw vector |
| `Registry.DrawnOneToOne` | src/App.tsx:62-63 | different in-range draw vectors give different selections |
| `Layers.EarsLayer` | src/App.tsx:119-144 | always a pair of ink-outlined ears, fur filled unless floppy |
| `Layers.HairLayer` | src/App.tsx:146-168 | empty exactly for "none"; every hair shape is fur filled and ink outlined |
| `Layers.EyesLayer` | src/App.tsx:170-204 | at least two shapes for every variant |
| `Layers.MouthLayer` | src/App.tsx:206-220 | every mouth begins with an unfilled ink path |
| `Layers.ClothesLayer` | src/App.tsx:222-244 | empty exactly for "none"; every clothing shape is ink outlined |
| `Layers.AccessoryLayer` | src/App.tsx:246-266 | empty exactly for "none" |
| `Layers.EarsFallback` | src/App.tsx:136-142 | any variant other than round and floppy renders the pointy ears, and "pointy" is registered |
| `Layers.HairFallback` | src/App.tsx:163-167 | any variant other than none, poof and bangs renders the mohawk, and "mohawk" is registered |
| `Layers.EyesFallback` | src/App.tsx:194-202 | any variant other than sleepy, round and winky renders the happy eyes, and "happy" is registered |
| `Layers.MouthFallback` | src/App.tsx:219 | any variant other than open, tongue and smirk renders the smile, and "smile" is registered |
| `Layers.ClothesFallback` | src/App.tsx:239-243 | any variant other than none, scarf and hoodie renders the tee, and "tee" is registered |
| `Layers.AccessoryFallback` | src/App.tsx:265 | any variant other than none, round-glasses and sunnies renders the earring, and "earring" is registered |
| `Layers.EarsSeparate` | src/App.tsx:119-144 | two registered ear options that render alike, whatever the furs, are the same option |
| `Layers.HairSeparate` | src/App.tsx:146-168 | two registered hair options that render alike, whatever the furs, are the same option |
| `Layers.EyesSeparate` | src/App.tsx:170-204 | two registered eye options that render alike are the same option |
| `Layers.MouthSeparate` | src/App.tsx:206-220 | two registered mouth options that render alike are the same option |
| `Layers.ClothesSeparate` | src/App.tsx:222-244 | two registered clothing options that render alike are the same option |
| `Layers.AccessorySeparate` | src/App.tsx:246-266 | two registered accessory options that render alike are the same option |
| `Preview.Rank` | src/App.tsx:315-362 | every layer kind has a place in the paint order, and the order holds that kind there |
| `Preview.PaintOrderFixed` | src/App.tsx:315-362 | each layer occurs exactly once; the background is at the back and the clothes at the front; the ears come directly before the hair and after the body |
| `Preview.Pattern` | src/App.tsx:320-324 | exactly 12 dots of radius 6, dot i at x = 20 + 35i, y = 20 for even i and 40 for odd i; no randomness |
| `Preview.PatternDotsApart` | src/App.tsx:321-323 | later dots lie at least 35 to the right, more than a dot's diameter, so no two dots overlap |
| `Preview.Compose` | src/App.tsx:311-364 | the scene has one layer per kind, in paint order, each showing that kind's shapes for the selection |
| `Preview.ComposeReadsOnly` | src/App.tsx:311-364 | changing a category leaves every layer that does not read it unchanged |
| `Preview.ComposeOneToOne` | src/App.tsx:311-364 | two valid selections with equal scenes are equal |
| `Preview.PickRedrawsOnlyItsLayers` | src/App.tsx:274 | picking a different registered option changes the scene, but only in the layers that read the picked category |
| `Preview.FlattenAppend` | src/App.tsx:315-362 | the document order of two scenes put one after the other is their document orders put one after the other |
| `Preview.ClothesPaintedLast` | src/App.tsx:358-361 | the clothes fragment ends the document order, and the background rectangle starts it |
| `Preview.DefaultScene` | src/App.tsx:108-116 | the startup picture has the first background and fur colours, pointy ears, poof hair, happy eyes and a smile, and no accessory or clothes |
| `Avatar.Generator.constructor` | src/App.tsx:272 | the state starts as the default selection, which is valid |
| `Avatar.Generator.Pick` | src/App.tsx:274 | the new state is the old one with `c` set to `v` and every other key untouched; it is valid exactly when the rest was valid and `v` is registered for `c` |
| `Avatar.Generator.PickOption` | src/App.tsx:410-413 | picking the i-th offered option of a category keeps a valid state valid |
| `Avatar.Generator.Randomize` | src/App.tsx:275-279 | the loop ends in exactly the drawn selection, whatever the state before, and that selection is valid |
| `Avatar.Generator.Reset` | src/App.tsx:280 | the new state is the default selection, whatever the state before |
| `Avatar.ResetIsIdempotent` | src/App.tsx:280 | resetting twice ends in the default selection, the same state as resetting once |
| `Avatar.RandomizeForgetsPriorState` | src/App.tsx:275-279 | two generators randomised with the same draws end in the same valid state, whatever their states before |

## Left out

- `downloadPNG` (src/App.tsx:282-309) is not modelled. It serialises the SVG, base64-encodes it, decodes it into an image, draws it on a 640×640 canvas and clicks a download link. All of that is browser I/O behind foreign APIs.
- `rand`'s `Math.random` and `Math.floor` use floating point. `Randomize` takes the drawn indices as a parameter instead, one per category, each below that category's option count. The model states uniformity as the one-to-one correspondence between draw vectors and valid selections (`DrawnOnto`, `DrawnOneToOne`), not as a probability.
- The React plumbing is not modelled: `useState`, `useMemo`, `useRef`, the JSX tree and `Panel`/`Badge`. `useMemo` recomputing the preview on every state change is the function `Compose` of the state.
- The selected-tab state `selCat` only chooses which options the panel shows. It is not a field of the model. `PickOption` takes the category as a parameter instead.
- Presentation attributes are not part of the shapes: `strokeWidth`, `strokeLinecap`, `opacity`, element keys, `viewBox`/`width`/`height`, and the Tailwind classes. Attributes set on a `<g>` group are copied onto the shapes inside it, and the group itself is not kept.
- Colours are opaque strings and are never validated, as in the source. Path data (`d`) is an opaque string.
- The Tips, Under the Hood and Extend panels (src/App.tsx:446-469) are static text.
- `Avatar.Generator.Pick`: the model accepts any string for `v`, as the source does. Keeping validity needs `v` to be registered, which the panel's buttons always ensure (`PickOption`).

# PhotoLab detail page: effect chain, live brush and export state

This project models the editing core of PhotoLab's photo detail page,
`DetailPage.xaml.cs`. An image item carries six adjustment values: exposure,
blur, tint, temperature, contrast and saturation. The page builds a fixed chain
of five named effect objects from them:

- `SaturationEffect`, fed by the source parameter `Backdrop`
- `ContrastEffect`
- `ExposureEffect`
- `TemperatureAndTintEffect`
- `Blur`, which draws with a hard border

The first time the edit pane opens, the page compiles this chain into a
composition brush. That brush has six registered animatable scalars named
`"<Stage>.<Param>"`. From then on, every change notification of the item
writes the item's current value into that brush, with no recompile. Export
re-roots the same chain at the full-resolution bitmap and copies each current
value into its stage. It draws the chain, lets the user pick a destination,
resets the effects, and either refreshes the item's image (same path) or
replaces the item by the saved file (another path). A navigation guard cancels
leaving a page with unsaved changes until the user agrees in a dialog.

There are two files:

- `effects.dfy` holds the pure part. Module `Effects` covers the adjustment
  values, the chain as a value (`BuildChain`), the parameter keys, the compile
  step and the dispatch table from property names to brush keys.
  Module `Wrappers` holds `Option`, which stands for a nullable reference.
- `detail_page.dfy` holds module `PhotoLab`. It has the classes `ImageFileInfo`
  (the fields the page reads and assigns) and `DetailPage` (the page's fields
  and its methods, written imperatively as the source is).

The main results are these:

- **Preview/export parity.** The chain export draws is exactly the chain a
  fresh build from the item's values gives, rooted at the bitmap
  (`RerootAndCopy`, `DetailPage.DrawForExport`). A chain of the fixed shape is
  determined by its root and its values (`ChainRoundTrip`).
- **The brush mirrors the item.** A compiled brush exposes exactly the six
  registered keys, each holding its property's value (`CompiledBrushMirrors`).
  Mirroring determines the brush (`MirrorsLiveBrush`). A set-then-notify keeps
  the brush equal to a fresh compile of the new values (`DispatchAfterSet`).
  For any edit of the page's item while it is subscribed, or of another
  object, the brush stays in sync (`PhotoLab.EditKeepsBrushInSync`).
- **Reset.** ResetEffects leaves the item at the neutral values. A subscribed
  compiled brush then shows them too (`DetailPage.ResetEffects`).
- **The compile gate.** ToggleEditState compiles at most once and flips the
  pane on every call (`DetailPage.ToggleEditState`).
- **The navigation guard.** The first attempt to leave with unsaved changes is
  cancelled. After "Leave this page" the re-issued attempt proceeds. After
  "Stay" nothing is re-issued (`PhotoLab.LeaveWithUnsavedChanges`).

### Consequences of the code as written

- **Saving to another path.** `ResetEffects` runs on the old item
  (DetailPage.xaml.cs:318) before `item = newItem` (:327). So the old item ends
  neutral, and the new item keeps the values the loader gave it
  (`DetailPage.AdoptSavedFile`).
- **The new item is not subscribed after such a save.** The page subscribes to
  an item only in `OnNavigatedTo` (:71), and :327 replaces the item without
  subscribing. After a save to another path, the page's item is therefore
  outside the subscriptions (`DetailPage.ExportImage`). The brush still shows
  the neutral values of the old item, and later edits of the new item no longer
  reach it. An edit to a non-neutral value leaves the live preview out of step
  with the item (`PhotoLab.EditAfterSaveElsewhere`).
- **A cancelled picker.** The shared effect objects are re-rooted at the bitmap
  and re-seeded (:287-298) before the picker opens (:309), and nothing restores
  them when the picker returns null. `DetailPage.ExportImage` states that the
  chain afterwards is the export chain, even when `picked` is `None`.
- **Five effect objects, six parameters.** Temperature and tint share the one
  `TemperatureAndTintEffect` stage (:205-211).
- **Export reuses the live chain.** Export mutates the same effect objects the
  live brush was compiled from (:287-298), instead of building new ones. This is
  why the model's chain is a page field that export re-assigns stage by stage.

## Model

| member | source | states |
|---|---|---|
| Effects.PropertyOf | xaml-basics-starting-points/user-interface/PhotoLab/DetailPage.xaml.cs:266-275 | a name is recognised exactly when it is the `nameof` of one of the six properties; any other name (e.g. ImageSource) is recognised as none |
| Effects.Set | xaml-basics-starting-points/user-interface/PhotoLab/DetailPage.xaml.cs:338-343 | a property setter changes that one property to the new value and leaves the other five as they were |
| Effects.BuildChain | xaml-basics-starting-points/user-interface/PhotoLab/DetailPage.xaml.cs:185-219 | the built chain has the fixed shape: five stages with their names, exactly their parameters, each later stage reading its predecessor, and only Blur hard-bordered; it has the given root, and its values are the given adjustments |
| Effects.ChainRoundTrip | xaml-basics-starting-points/user-interface/PhotoLab/DetailPage.xaml.cs:185-219 | every chain of the fixed shape is the chain built from its own values at its own root |
| Effects.RerootAndCopy | xaml-basics-starting-points/user-interface/PhotoLab/DetailPage.xaml.cs:287-298 | re-rooting the first stage at the bitmap and copying the six values in the export's order turns any chain of the fixed shape, whatever it held, into the chain built from those values at the bitmap |
| Effects.KeyText | xaml-basics-starting-points/user-interface/PhotoLab/DetailPage.xaml.cs:230-233 | a key's text is its stage name, a dot, then its parameter name |
| Effects.KeyTextInjective | xaml-basics-starting-points/user-interface/PhotoLab/DetailPage.xaml.cs:230-233 | two keys have the same dotted text exactly when they are the same key |
| Effects.StageParameters | xaml-basics-starting-points/user-interface/PhotoLab/DetailPage.xaml.cs:230-233 | a stage exposes each of its parameters, and only those, under the stage's name, with the parameter's value |
| Effects.Compile | xaml-basics-starting-points/user-interface/PhotoLab/DetailPage.xaml.cs:230-234 | the compiled brush holds exactly the registered keys, each with the chain's current value for that key; compiling requires every registered key to name a chain parameter |
| Effects.BrushKey | xaml-basics-starting-points/user-interface/PhotoLab/DetailPage.xaml.cs:268-273 | every property's dispatch key is one of the registered keys |
| Effects.BrushKeyBijective | xaml-basics-starting-points/user-interface/PhotoLab/DetailPage.xaml.cs:230-233 | the dispatch table sends distinct properties to distinct keys and covers every registered key |
| Effects.BuiltChainParameters | xaml-basics-starting-points/user-interface/PhotoLab/DetailPage.xaml.cs:185-233 | a built chain's parameters are exactly the six registered keys, and each holds the value of the property the dispatch table routes to it |
| Effects.CompiledBrushMirrors | xaml-basics-starting-points/user-interface/PhotoLab/DetailPage.xaml.cs:221-234 | the registered keys are all parameters of a built chain, so the factory accepts them; the compiled brush mirrors the values the chain was built from, whatever its root |
| Effects.MirrorsLiveBrush | xaml-basics-starting-points/user-interface/PhotoLab/DetailPage.xaml.cs:221-234 | a brush mirrors some values if and only if it equals the live compile of those values |
| Effects.Dispatch | xaml-basics-starting-points/user-interface/PhotoLab/DetailPage.xaml.cs:261-276 | a recognised name writes the current value of its property under its one key and changes no other key; any other name leaves the brush unchanged |
| Effects.DispatchAfterSet | xaml-basics-starting-points/user-interface/PhotoLab/DetailPage.xaml.cs:261-276 | after a setter assigns a value, dispatching its notification turns the live compile of the old values into the live compile of the new ones |
| Effects.DispatchCurrent | xaml-basics-starting-points/user-interface/PhotoLab/DetailPage.xaml.cs:261-276 | dispatching any name with the values the live brush already shows leaves it unchanged |
| Effects.MirrorsAfterWrite | xaml-basics-starting-points/user-interface/PhotoLab/DetailPage.xaml.cs:261-276 | writing a property's new value under its key keeps a mirroring brush mirroring the updated values |
| Effects.MirrorsRewrite | xaml-basics-starting-points/user-interface/PhotoLab/DetailPage.xaml.cs:71 | rewriting a value a mirroring brush already holds leaves it unchanged; this is the case of a stale subscription to a replaced item |
| Effects.ResetOverwrites | xaml-basics-starting-points/user-interface/PhotoLab/DetailPage.xaml.cs:336-344 | the reset's six notifications, in setter order, make any brush with the registered keys mirror the neutral values |
| PhotoLab.ImageFileInfo.constructor | xaml-basics-starting-points/user-interface/PhotoLab/DetailPage.xaml.cs:319 | a loaded item has the file's path, image, adjustment values and NeedsSaved flag |
| PhotoLab.ImageFileInfo.Assign | xaml-basics-starting-points/user-interface/PhotoLab/DetailPage.xaml.cs:338-343 | a setter's assignment changes that one adjustment and leaves the item's image, path and NeedsSaved alone |
| PhotoLab.DetailPage.constructor | xaml-basics-starting-points/user-interface/PhotoLab/DetailPage.xaml.cs:46-61 | a new page has no item, no chain, no brush, the compile gate open and no agreement to leave |
| PhotoLab.DetailPage.OnNavigatedTo | xaml-basics-starting-points/user-interface/PhotoLab/DetailPage.xaml.cs:63-71 | the parameter becomes the item, the agreement flag is cleared, and the item is reset to neutral (keeping its image, path and NeedsSaved) before the page subscribes to it; a brush changes only if the item was already subscribed, and then it shows the neutral values |
| PhotoLab.DetailPage.OnNavigatingFrom | xaml-basics-starting-points/user-interface/PhotoLab/DetailPage.xaml.cs:101-123 | navigation is cancelled if and only if the item needs saving and the user has not agreed to leave; afterwards the agreement flag is false |
| PhotoLab.DetailPage.ShowSaveDialog | xaml-basics-starting-points/user-interface/PhotoLab/DetailPage.xaml.cs:129-146 | the navigation is re-issued exactly when the user picks "Leave this page", and only that choice sets the agreement flag |
| PhotoLab.DetailPage.InitializeEffects | xaml-basics-starting-points/user-interface/PhotoLab/DetailPage.xaml.cs:185-219 | the chain becomes the five-stage chain built from the item's current values at the backdrop |
| PhotoLab.DetailPage.InitializeCompositor | xaml-basics-starting-points/user-interface/PhotoLab/DetailPage.xaml.cs:221-243 | builds the chain from the item, shows the item's image, compiles the live brush of the item's values (so it is in sync), closes the gate, and keeps the page invariant |
| PhotoLab.DetailPage.ToggleEditState | xaml-basics-starting-points/user-interface/PhotoLab/DetailPage.xaml.cs:245-259 | every call flips the pane; the gate is closed afterwards exactly when it was closed before or the pane was opened; only the first opening compiles (chain and brush from the item, in sync), and otherwise chain, brush and image are unchanged |
| PhotoLab.DetailPage.InsertScalar | xaml-basics-starting-points/user-interface/PhotoLab/DetailPage.xaml.cs:263-264 | the write reaches the brush when one exists and does nothing when the brush is null |
| PhotoLab.DetailPage.UpdateEffectBrush | xaml-basics-starting-points/user-interface/PhotoLab/DetailPage.xaml.cs:261-276 | with a brush and a recognised name, the brush becomes the dispatch of the item's current values; with no brush or another name, nothing changes; the page invariant is kept |
| PhotoLab.DetailPage.SetItemProperty | xaml-basics-starting-points/user-interface/PhotoLab/DetailPage.xaml.cs:71 | a setter on any item changes its one value; the handler of a subscribed item writes the page's current item's value (not the sender's) under the property's key, and an unsubscribed item never touches the brush |
| PhotoLab.DetailPage.ResetEffects | xaml-basics-starting-points/user-interface/PhotoLab/DetailPage.xaml.cs:336-344 | the item ends at saturation 1 and the other five at 0, with its image, path and flag unchanged; a subscribed item's brush then mirrors the neutral values, and otherwise the brush is untouched |
| PhotoLab.DetailPage.DrawForExport | xaml-basics-starting-points/user-interface/PhotoLab/DetailPage.xaml.cs:285-299 | the chain drawn, and kept as the page's chain, is exactly the chain built from the item's current values rooted at the loaded bitmap |
| PhotoLab.DetailPage.ExportImage | xaml-basics-starting-points/user-interface/PhotoLab/DetailPage.xaml.cs:278-334 | draws the bitmap-rooted build of the item's values; a cancelled picker changes nothing but the chain; after a save the old item is neutral with its path and NeedsSaved kept, and the main image shows the item's image; the same path replaces only the item's image, and another path makes the loaded file the new item, which is not subscribed |
| PhotoLab.DetailPage.AdoptSavedFile | xaml-basics-starting-points/user-interface/PhotoLab/DetailPage.xaml.cs:318-330 | resets the old item (and a subscribed brush to neutral), keeping its path and NeedsSaved; on the same path, the item stays and takes the loaded image; on another path, a fresh, unsubscribed item carries the loaded path, image, values and flag; the main image shows the item's image |
| PhotoLab.EditKeepsBrushInSync | xaml-basics-starting-points/user-interface/PhotoLab/DetailPage.xaml.cs:71 | any edit of a subscribed item, or of any object that is not the page's item, keeps an in-sync brush in sync with the page's item and keeps the page invariant |
| PhotoLab.EditAfterSaveElsewhere | xaml-basics-starting-points/user-interface/PhotoLab/DetailPage.xaml.cs:318-327 | after a save to another path, the page's item is unsubscribed; an edit of it changes the item but leaves the brush mirroring the neutral values, so any edit to a non-neutral value leaves the page out of sync |
| PhotoLab.LeaveWithUnsavedChanges | xaml-basics-starting-points/user-interface/PhotoLab/DetailPage.xaml.cs:101-146 | with unsaved changes, the first navigation away is cancelled; the navigation is re-issued exactly when the user picks "Leave this page", and it then proceeds; with "Stay" nothing is re-issued; either way the agreement flag ends cleared |

## Left out

- Composition and Win2D internals are left out, including pixel arithmetic. The compositor, backdrop brush, sprite visual and its size, `InvalidateArrange` and the drawing session are not modelled. A compiled brush is modelled as its map of animatable scalars, and a drawing as the chain it draws.
- Loading the bitmap, the file picker, the JPEG encoding and the file writes are I/O. `ExportImage` takes the decoded bitmap, the picker's result and the loaded file (`MainPage.LoadImageInfo`, which is not part of this model) as parameters. I/O failures are not modelled.
- The `await` steps are modelled as sequential calls. Interleavings with other handlers during an export are not modelled.
- Zoom and scroll handlers (`ZoomSlider_ValueChanged`, `MainImageScroller_ViewChanged`, `FitToScreen`, `ShowActualSize`, `UpdateZoomState`) are UI glue outside the editing core.
- The rest of `OnNavigatedTo` is not modelled: the target image, the connected animation with its Completed handler (which sets the main image to the item's image at line 78), and the back-button visibility.
- `OnNavigatingFrom`'s `PrepareToAnimate` and the base-class calls are not modelled.
- Adjustment values are C# `float`s and are modelled as `real`. The page only copies them, never computes with them.
- `ImageFileInfo` is not part of this model beyond the fields the page reads and assigns. `NeedsSaved` is a plain field, and its own bookkeeping in `ImageFileInfo` is not modelled.
- Brush keys are kept as (stage, parameter) pairs instead of the dotted strings. `KeyTextInjective` shows that nothing is lost by this.
- Effect objects are stage values in a sequence, not shared objects. The chain the brush compiled from and the chain export mutates are one field, as in the source.
- The page subscribes once per navigation. Repeated subscriptions to the same item are modelled as a set. A duplicate handler would write the same value a second time, which leaves the brush the same.
- PhotoLab.DetailPage.OnNavigatedTo: requires a non-null parameter. The source dereferences the item in `ResetEffects` before its null check, so a null parameter throws.
- PhotoLab.DetailPage.ExportImage: requires a compiled chain. The source dereferences the effect objects, which are null until `InitializeEffects` has run.
- PhotoLab.DetailPage.InitializeEffects, PhotoLab.DetailPage.InitializeCompositor, PhotoLab.DetailPage.ToggleEditState (when it compiles), PhotoLab.DetailPage.UpdateEffectBrush (for a recognised name) and PhotoLab.DetailPage.ResetEffects: require an item. The source dereferences `item` there (e.g. lines 190, 225, 268, 338), so a null item throws. After `OnNavigatedTo` the item is never null.
- PhotoLab.DetailPage.OnNavigatingFrom: requires an item. The source reads `item.NeedsSaved` unconditionally.

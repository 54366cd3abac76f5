/**
 * The editing state of the photo detail page: the image item being edited, the
 * effect chain, the compiled live brush, the one-time compile gate, the edit pane,
 * the export bookkeeping and the unsaved-changes navigation guard.
 */
module PhotoLab {
  import opened Wrappers
  import opened Effects

  /** The decoded image an item shows (a BitmapImage), known only by identity. */
  datatype ImageSource = ImageSource(id: nat)

  /** What loading an image file yields: its image, its adjustment values and its NeedsSaved flag. */
  datatype LoadedImage = LoadedImage(source: ImageSource, adjustments: Adjustments, needsSaved: bool)

  /** The fields of an image item that the detail page reads and assigns. */
  class ImageFileInfo {
    var exposure: real
    var blur: real
    var tint: real
    var temperature: real
    var contrast: real
    var saturation: real
    var imageSource: ImageSource
    var path: string
    var needsSaved: bool

    constructor (path: string, source: ImageSource, a: Adjustments, needsSaved: bool)
      ensures this.path == path && imageSource == source && this.needsSaved == needsSaved
      ensures Snapshot() == a
    {
      this.path := path;
      imageSource := source;
      this.needsSaved := needsSaved;
      exposure, blur, tint := a.exposure, a.blur, a.tint;
      temperature, contrast, saturation := a.temperature, a.contrast, a.saturation;
    }

    /** The assignment a property setter performs, before it raises PropertyChanged. */
    method Assign(p: Adjustment, v: real)
      modifies this
      ensures Snapshot() == Set(old(Snapshot()), p, v)
      ensures imageSource == old(imageSource) && path == old(path) && needsSaved == old(needsSaved)
    {
      match p {
        case Exposure => exposure := v;
        case Temperature => temperature := v;
        case Tint => tint := v;
        case Contrast => contrast := v;
        case Saturation => saturation := v;
        case Blur => blur := v;
      }
    }

    /** The item's current adjustment values. */
    function Snapshot(): Adjustments
      reads this
    {
      Adjustments(exposure, blur, tint, temperature, contrast, saturation)
    }
  }

  class DetailPage {
    /** The image item shown; null until the page is navigated to. */
    var item: ImageFileInfo?
    /** The items whose PropertyChanged event runs this page's UpdateEffectBrush. */
    var subscriptions: set<ImageFileInfo>
    /** The five effect objects, first stage first; empty until InitializeEffects runs. */
    var chain: seq<Stage>
    /** The compiled effect brush and its animatable scalars; None until compiled. */
    var brush: Option<map<Key, real>>
    var editingInitialized: bool
    var canNavigateWithUnsavedChanges: bool
    /** Whether the edit pane (the split view's pane) is open. */
    var isPaneOpen: bool
    /** The image the main image element shows. */
    var mainImageSource: Option<ImageSource>

    /**
     * The page invariant: subscribed handlers only exist once an item is set;
     * once editing is initialized the chain has its fixed shape, rooted at the
     * backdrop or at a loaded bitmap, and the brush exists with exactly the six
     * registered keys; before that there is neither chain nor brush.
     */
    ghost predicate Valid()
      reads this
    {
      EditsValid() && ChainValid()
    }

    /**
     * The part of the invariant that item edits and their notifications rely on:
     * handlers are subscribed only once an item is set, and the brush is valid.
     */
    ghost predicate EditsValid()
      reads this`subscriptions, this`item, this`editingInitialized, this`brush
    {
      (subscriptions != {} ==> item != null) && BrushValid()
    }

    /** Once editing is initialized the chain has its fixed shape and root; before, there is none. */
    ghost predicate ChainValid()
      reads this`editingInitialized, this`chain
    {
      if editingInitialized then Shape(chain) && IsRoot(chain[0].source) else chain == []
    }

    /** Once editing is initialized the brush exists with exactly the registered keys; before, there is none. */
    ghost predicate BrushValid()
      reads this`editingInitialized, this`brush
    {
      if editingInitialized then brush.Some? && (forall k :: k in brush.value <==> k in RegisteredKeys)
      else brush.None?
    }

    /**
     * The live brush, once compiled, shows the current item's values (by
     * MirrorsLiveBrush: it equals a fresh compile of them).
     */
    ghost predicate InSync()
      reads this, item
    {
      item != null && brush.Some? ==> Mirrors(brush.value, item.Snapshot())
    }

    constructor (paneOpen: bool)
      ensures Valid()
      ensures item == null && subscriptions == {} && chain == [] && brush == None
      ensures !editingInitialized && !canNavigateWithUnsavedChanges
      ensures isPaneOpen == paneOpen && mainImageSource == None
    {
      item := null;
      subscriptions := {};
      chain := [];
      brush := None;
      editingInitialized := false;
      canNavigateWithUnsavedChanges := false;
      isPaneOpen := paneOpen;
      mainImageSource := None;
    }

    /**
     * OnNavigatedTo: takes the navigation parameter as the item, clears the
     * unsaved-changes flag, resets the item's adjustments and only then
     * subscribes the page to the item's change notifications.
     */
    method OnNavigatedTo(parameter: ImageFileInfo?)
      requires Valid()
      requires parameter != null
      modifies this`item, this`canNavigateWithUnsavedChanges, this`subscriptions, this`brush
      modifies parameter
      ensures Valid()
      ensures item == parameter && !canNavigateWithUnsavedChanges
      ensures subscriptions == old(subscriptions) + {parameter}
      ensures parameter.Snapshot() == Neutral
      ensures parameter.imageSource == old(parameter.imageSource) && parameter.path == old(parameter.path)
      ensures parameter.needsSaved == old(parameter.needsSaved)
      ensures parameter in old(subscriptions) && old(brush).Some? ==> brush.Some? && Mirrors(brush.value, Neutral)
      ensures parameter !in old(subscriptions) || old(brush).None? ==> brush == old(brush)
    {
      item := parameter;
      canNavigateWithUnsavedChanges := false;
      ResetEffects();
      subscriptions := subscriptions + {item};
    }

    /**
     * OnNavigatingFrom: cancels the navigation (and shows the save dialog)
     * exactly when the item has unsaved changes and the user has not yet agreed
     * to leave; otherwise lets it proceed and clears the agreement. Either way
     * the agreement flag is false afterwards.
     */
    method OnNavigatingFrom() returns (cancel: bool)
      requires item != null
      modifies this`canNavigateWithUnsavedChanges
      ensures cancel == (item.needsSaved && !old(canNavigateWithUnsavedChanges))
      ensures !canNavigateWithUnsavedChanges
    {
      if item.needsSaved && !canNavigateWithUnsavedChanges {
        cancel := true;
      } else {
        cancel := false;
        canNavigateWithUnsavedChanges := false;
      }
    }

    /**
     * ShowSaveDialog, once the dialog has closed: choosing the primary button
     * ("Leave this page") records the agreement and re-issues the navigation;
     * any other choice changes nothing.
     */
    method ShowSaveDialog(leave: bool) returns (navigateAgain: bool)
      modifies this`canNavigateWithUnsavedChanges
      ensures navigateAgain == leave
      ensures canNavigateWithUnsavedChanges == (leave || old(canNavigateWithUnsavedChanges))
    {
      navigateAgain := false;
      if leave {
        canNavigateWithUnsavedChanges := true;
        navigateAgain := true;
      }
    }

    /** InitializeEffects: the five effect objects, chained from the backdrop and seeded from the item. */
    method InitializeEffects()
      requires item != null
      modifies this`chain
      ensures chain == BuildChain(item.Snapshot(), Backdrop)
    {
      var saturationEffect := Stage(SaturationEffect, Backdrop, map["Saturation" := item.saturation], false);
      var contrastEffect := Stage(ContrastEffect, Upstream(saturationEffect.name),
                                  map["Contrast" := item.contrast], false);
      var exposureEffect := Stage(ExposureEffect, Upstream(contrastEffect.name),
                                  map["Exposure" := item.exposure], false);
      var temperatureAndTintEffect := Stage(TemperatureAndTintEffect, Upstream(exposureEffect.name),
                                            map["Temperature" := item.temperature, "Tint" := item.tint], false);
      var graphicsEffect := Stage(BlurEffect, Upstream(temperatureAndTintEffect.name),
                                  map["BlurAmount" := item.blur], true);
      chain := [saturationEffect, contrastEffect, exposureEffect, temperatureAndTintEffect, graphicsEffect];
    }

    /**
     * InitializeCompositor: builds the chain, shows the item's image, compiles
     * the chain into a brush whose animatable scalars are the six registered
     * keys, and closes the compile gate. The brush then shows the item's values.
     */
    method InitializeCompositor()
      requires Valid()
      requires item != null
      modifies this`chain, this`brush, this`editingInitialized, this`mainImageSource
      ensures Valid() && editingInitialized
      ensures chain == BuildChain(item.Snapshot(), Backdrop)
      ensures brush == Some(LiveBrush(item.Snapshot()))
      ensures mainImageSource == Some(item.imageSource)
      ensures InSync()
    {
      InitializeEffects();
      mainImageSource := Some(item.imageSource);
      CompiledBrushMirrors(item.Snapshot(), Backdrop);
      brush := Some(Compile(chain, RegisteredKeys));
      editingInitialized := true;
    }

    /**
     * ToggleEditState: closes an open pane; opens a closed one, compiling the
     * brush first when editing has not been initialized. So the brush is
     * compiled at most once, and every call flips the pane.
     */
    method ToggleEditState()
      requires Valid()
      requires !isPaneOpen && !editingInitialized ==> item != null
      modifies this`isPaneOpen, this`chain, this`brush, this`editingInitialized, this`mainImageSource
      ensures Valid()
      ensures isPaneOpen == !old(isPaneOpen)
      ensures editingInitialized == (old(editingInitialized) || !old(isPaneOpen))
      ensures !old(isPaneOpen) && !old(editingInitialized) ==>
                && chain == BuildChain(item.Snapshot(), Backdrop)
                && brush == Some(LiveBrush(item.Snapshot())) && InSync()
                && mainImageSource == Some(item.imageSource)
      ensures old(isPaneOpen) || old(editingInitialized) ==>
                chain == old(chain) && brush == old(brush) && mainImageSource == old(mainImageSource)
    {
      if isPaneOpen {
        isPaneOpen := false;
      } else {
        if !editingInitialized {
          InitializeCompositor();
        }
        isPaneOpen := true;
      }
    }

    /** Brush.Properties.InsertScalar through a null-conditional brush reference. */
    method InsertScalar(key: Key, value: real)
      modifies this`brush
      ensures brush == if old(brush).Some? then Some(old(brush).value[key := value]) else None
    {
      if brush.Some? {
        brush := Some(brush.value[key := value]);
      }
    }

    /**
     * UpdateEffectBrush: routes a changed property name to its one brush key and
     * writes the item's current value there when the brush exists; any other
     * name, or a missing brush, changes nothing.
     */
    method UpdateEffectBrush(propertyName: string)
      requires PropertyOf(propertyName).Some? ==> item != null
      modifies this`brush
      ensures old(EditsValid()) ==> EditsValid()
      ensures old(brush).None? || PropertyOf(propertyName).None? ==> brush == old(brush)
      ensures old(brush).Some? && PropertyOf(propertyName).Some? ==>
                brush == Some(Dispatch(old(brush).value, propertyName, item.Snapshot()))
    {
      match PropertyOf(propertyName) {
        case None =>
        case Some(p) => InsertScalar(BrushKey(p), Get(item.Snapshot(), p));
      }
    }

    /**
     * A property setter of `target` assigning v and raising PropertyChanged: a
     * subscribed handler calls UpdateEffectBrush, which reads the page's current
     * item (not the sender).
     */
    method SetItemProperty(target: ImageFileInfo, p: Adjustment, v: real)
      requires target in subscriptions ==> item != null
      modifies target
      modifies this`brush
      ensures target.Snapshot() == Set(old(target.Snapshot()), p, v)
      ensures target.imageSource == old(target.imageSource) && target.path == old(target.path)
      ensures target.needsSaved == old(target.needsSaved)
      ensures target !in subscriptions || old(brush).None? ==> brush == old(brush)
      ensures target == item && target in subscriptions && old(brush).Some? ==>
                brush == Some(old(brush).value[BrushKey(p) := v])
      ensures target != item && target in subscriptions && old(brush).Some? ==>
                brush == Some(old(brush).value[BrushKey(p) := Get(item.Snapshot(), p)])
    {
      target.Assign(p, v);
      PropertyOfName(p);
      if target in subscriptions {
        UpdateEffectBrush(Name(p));
      }
    }

    /**
     * ResetEffects: the item's setters assign contrast, temperature, tint,
     * blur and exposure 0 and then saturation 1. When the item is subscribed,
     * each assignment reaches the compiled brush, which then shows the neutral values.
     */
    method ResetEffects()
      requires EditsValid()
      requires item != null
      modifies item
      modifies this`brush
      ensures EditsValid()
      ensures item.Snapshot() == Neutral
      ensures item.imageSource == old(item.imageSource) && item.path == old(item.path)
      ensures item.needsSaved == old(item.needsSaved)
      ensures item in subscriptions && old(brush).Some? ==> brush.Some? && Mirrors(brush.value, Neutral)
      ensures item !in subscriptions || old(brush).None? ==> brush == old(brush)
    {
      ghost var notified := item in subscriptions && brush.Some?;
      ghost var b := if brush.Some? then brush.value else map[];
      SetItemProperty(item, Contrast, 0.0);
      SetItemProperty(item, Temperature, 0.0);
      SetItemProperty(item, Tint, 0.0);
      SetItemProperty(item, Blur, 0.0);
      SetItemProperty(item, Exposure, 0.0);
      SetItemProperty(item, Saturation, 1.0);
      if notified {
        assert brush == Some(ResetWrites(b));
        ResetOverwrites(b);
      }
    }

    /**
     * The drawing half of ExportImage: re-roots the first stage at the loaded
     * bitmap, copies every current value of the item into its stage and draws
     * the last stage. What is drawn is the chain a fresh build from the item's
     * values at that bitmap gives -- the graph the live brush was compiled from.
     */
    method DrawForExport(image: Bitmap) returns (drawn: seq<Stage>)
      requires ChainValid() && editingInitialized && item != null
      modifies this`chain
      ensures ChainValid()
      ensures drawn == BuildChain(item.Snapshot(), Image(image))
      ensures chain == drawn
    {
      RerootAndCopy(chain, image, item.Snapshot());
      chain := WithSource(chain, 0, Image(image));
      chain := WithParameter(chain, 1, "Contrast", item.contrast);
      chain := WithParameter(chain, 2, "Exposure", item.exposure);
      chain := WithParameter(chain, 3, "Temperature", item.temperature);
      chain := WithParameter(chain, 3, "Tint", item.tint);
      chain := WithParameter(chain, 0, "Saturation", item.saturation);
      chain := WithParameter(chain, 4, "BlurAmount", item.blur);
      drawn := chain;
    }

    /**
     * ExportImage after the bitmap `image` has been loaded from the item's file:
     * re-roots the first stage at the bitmap and copies every current value into
     * its stage, draws the chain, and asks for a destination (`picked`, None when
     * the picker is cancelled). After a save it resets the effects, then either
     * gives the item the loaded image (same path) or makes the loaded file the
     * item (another path), and shows the item's image.
     */
    method ExportImage(image: Bitmap, picked: Option<string>, loaded: LoadedImage) returns (drawn: seq<Stage>)
      requires Valid()
      requires editingInitialized && item != null
      modifies this`chain, this`item, this`brush, this`mainImageSource
      modifies item
      ensures Valid() && item != null
      ensures drawn == BuildChain(old(item.Snapshot()), Image(image))
      ensures chain == drawn
      ensures picked.None? ==>
                && item == old(item) && unchanged(item)
                && brush == old(brush) && mainImageSource == old(mainImageSource)
      ensures picked.Some? ==>
                && old(item).Snapshot() == Neutral
                && old(item).path == old(item.path) && old(item).needsSaved == old(item.needsSaved)
                && mainImageSource == Some(item.imageSource)
                && (old(item) in subscriptions ==> brush.Some? && Mirrors(brush.value, Neutral))
                && (old(item) !in subscriptions ==> brush == old(brush))
      ensures picked.Some? && picked.value == old(item.path) ==>
                item == old(item) && item.imageSource == loaded.source
      ensures picked.Some? && picked.value != old(item.path) ==>
                && fresh(item) && item.path == picked.value && item.imageSource == loaded.source
                && item.Snapshot() == loaded.adjustments && item.needsSaved == loaded.needsSaved
                && old(item).imageSource == old(item.imageSource)
                && item !in subscriptions
    {
      drawn := DrawForExport(image);
      if picked.Some? {
        AdoptSavedFile(picked.value, loaded);
      }
    }

    /**
     * The end of ExportImage once the JPEG has been written to `path`: resets
     * the effects, loads the written file (`loaded`), and either gives the item
     * the loaded image (the same path) or makes the loaded file the item (another
     * path); the main image then shows the item's image.
     */
    method AdoptSavedFile(path: string, loaded: LoadedImage)
      requires Valid() && item != null
      modifies this`item, this`brush, this`mainImageSource
      modifies item
      ensures Valid() && item != null
      ensures old(item).Snapshot() == Neutral
      ensures old(item).path == old(item.path) && old(item).needsSaved == old(item.needsSaved)
      ensures mainImageSource == Some(item.imageSource)
      ensures old(item) in subscriptions && old(brush).Some? ==> brush.Some? && Mirrors(brush.value, Neutral)
      ensures old(item) !in subscriptions || old(brush).None? ==> brush == old(brush)
      ensures path == old(item.path) ==> item == old(item) && item.imageSource == loaded.source
      ensures path != old(item.path) ==>
                && fresh(item) && item.path == path && item.imageSource == loaded.source
                && item.Snapshot() == loaded.adjustments && item.needsSaved == loaded.needsSaved
                && old(item).imageSource == old(item.imageSource)
                && item !in subscriptions
    {
      ResetEffects();
      var newItem := new ImageFileInfo(path, loaded.source, loaded.adjustments, loaded.needsSaved);
      if path == item.path {
        item.imageSource := newItem.imageSource;
      } else {
        item := newItem;
      }
      mainImageSource := Some(item.imageSource);
    }
  }

  /**
   * An edit of a subscribed item keeps an in-sync brush in sync: when the edited
   * item is the page's item the brush takes the new value, and when it is
   * another subscribed item (one the page has since replaced) the brush is
   * rewritten with the value it already shows.
   */
  method EditKeepsBrushInSync(page: DetailPage, target: ImageFileInfo, p: Adjustment, v: real)
    requires page.Valid() && page.InSync()
    requires target == page.item ==> target in page.subscriptions
    modifies target
    modifies page`brush
    ensures page.Valid() && page.InSync()
    ensures target.Snapshot() == Set(old(target.Snapshot()), p, v)
  {
    ghost var before := if page.item == null then Neutral else page.item.Snapshot();
    page.SetItemProperty(target, p, v);
    if page.item != null && old(page.brush).Some? && target in page.subscriptions {
      if target == page.item {
        MirrorsAfterWrite(old(page.brush).value, before, p, v);
      } else {
        MirrorsRewrite(old(page.brush).value, before, p);
      }
    }
  }

  /**
   * Leaving a page whose item has unsaved changes: the first attempt is
   * cancelled and shows the dialog. Choosing "Leave this page" (`leave`)
   * re-issues the navigation, which then proceeds; choosing "Stay" re-issues
   * nothing. Either way the agreement flag ends cleared.
   */
  method LeaveWithUnsavedChanges(page: DetailPage, leave: bool) returns (firstCancelled: bool, reissued: bool, secondCancelled: bool)
    requires page.item != null && page.item.needsSaved && !page.canNavigateWithUnsavedChanges
    modifies page`canNavigateWithUnsavedChanges
    ensures firstCancelled
    ensures reissued == leave
    ensures reissued ==> !secondCancelled
    ensures !page.canNavigateWithUnsavedChanges
  {
    firstCancelled := page.OnNavigatingFrom();
    secondCancelled := false;
    reissued := page.ShowSaveDialog(leave);
    if reissued {
      secondCancelled := page.OnNavigatingFrom();
    } else {
      // "Stay": the dialog closes, the page stays, and the flag is still cleared.
      assert !page.canNavigateWithUnsavedChanges;
    }
  }

  /**
   * After an export saved to another path, the page's item is the loaded file,
   * which the page never subscribed to: an edit of it leaves the brush showing
   * the neutral values of the old item. The live preview stops following the
   * item, and an edit to a non-neutral value leaves the brush out of sync.
   */
  method EditAfterSaveElsewhere(page: DetailPage, image: Bitmap, path: string, loaded: LoadedImage, p: Adjustment, v: real)
    requires page.Valid() && page.editingInitialized && page.item != null
    requires page.item in page.subscriptions && path != page.item.path
    modifies page`chain, page`item, page`brush, page`mainImageSource
    modifies page.item
    ensures page.item != null && page.item !in page.subscriptions
    ensures page.item.Snapshot() == Set(loaded.adjustments, p, v)
    ensures page.brush.Some? && Mirrors(page.brush.value, Neutral)
    ensures v != Get(Neutral, p) ==> !page.InSync()
  {
    var drawn := page.ExportImage(image, Some(path), loaded);
    page.SetItemProperty(page.item, p, v);
  }
}

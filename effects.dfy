/** A value that may be absent: stands for a C# reference that may be null. */
module Wrappers {
  datatype Option<+T> = None | Some(value: T)
}

/**
 * The pure part of the photo detail page: the six adjustments of an image item,
 * the fixed chain of five named effect stages built from them, the parameter keys
 * the compiled brush exposes, and the table that routes a changed property name
 * to its brush key.
 */
module Effects {
  import opened Wrappers

  /** The adjustment values of one image item. The source's floats are only copied, never computed with. */
  datatype Adjustments = Adjustments(
    exposure: real, blur: real, tint: real, temperature: real, contrast: real, saturation: real)

  /** The six adjustable properties of an image item. */
  datatype Adjustment = Exposure | Temperature | Tint | Contrast | Saturation | Blur

  /** The values ResetEffects assigns: every adjustment 0 except saturation, which is 1. */
  const Neutral: Adjustments := Adjustments(0.0, 0.0, 0.0, 0.0, 0.0, 1.0)

  /** The property name a change notification carries (C#'s nameof). */
  function Name(p: Adjustment): string
  {
    match p
    case Exposure => "Exposure"
    case Temperature => "Temperature"
    case Tint => "Tint"
    case Contrast => "Contrast"
    case Saturation => "Saturation"
    case Blur => "Blur"
  }

  /** Recognises a property name; any other name (ImageSource, NeedsSaved, ...) is None. */
  function PropertyOf(name: string): (p: Option<Adjustment>)
    ensures p.Some? ==> Name(p.value) == name
    ensures p.None? ==> forall q :: Name(q) != name
  {
    if name == "Exposure" then Some(Exposure)
    else if name == "Temperature" then Some(Temperature)
    else if name == "Tint" then Some(Tint)
    else if name == "Contrast" then Some(Contrast)
    else if name == "Saturation" then Some(Saturation)
    else if name == "Blur" then Some(Blur)
    else None
  }

  lemma PropertyOfName(p: Adjustment)
    ensures PropertyOf(Name(p)) == Some(p)
  {
  }

  function Get(a: Adjustments, p: Adjustment): real
  {
    match p
    case Exposure => a.exposure
    case Temperature => a.temperature
    case Tint => a.tint
    case Contrast => a.contrast
    case Saturation => a.saturation
    case Blur => a.blur
  }

  /** The adjustments after the setter of property p assigned v. */
  function Set(a: Adjustments, p: Adjustment, v: real): (r: Adjustments)
    ensures Get(r, p) == v
    ensures forall q :: q != p ==> Get(r, q) == Get(a, q)
  {
    match p
    case Exposure => a.(exposure := v)
    case Temperature => a.(temperature := v)
    case Tint => a.(tint := v)
    case Contrast => a.(contrast := v)
    case Saturation => a.(saturation := v)
    case Blur => a.(blur := v)
  }

  // ---------------------------------------------------------------------------
  // The effect chain

  /** A decoded full-resolution bitmap (a CanvasBitmap), known only by identity. */
  datatype Bitmap = Bitmap(id: nat)

  /** The five effect objects, by the Name each is given. */
  datatype StageName = SaturationEffect | ContrastEffect | ExposureEffect | TemperatureAndTintEffect | BlurEffect

  /** The Name string the source gives each effect object. */
  function StageText(n: StageName): string
  {
    match n
    case SaturationEffect => "SaturationEffect"
    case ContrastEffect => "ContrastEffect"
    case ExposureEffect => "ExposureEffect"
    case TemperatureAndTintEffect => "TemperatureAndTintEffect"
    case BlurEffect => "Blur"
  }

  /** Where a stage takes its input image from. */
  datatype Source =
    | Parameter(parameterName: string)  // a named source parameter, bound when the brush is compiled
    | Image(bitmap: Bitmap)             // a loaded bitmap
    | Upstream(stage: StageName)        // the output of the stage with this name

  /** The source parameter the live brush binds to the backdrop brush. */
  const Backdrop: Source := Parameter("Backdrop")

  /** A source the first stage of the page's chain may have. */
  predicate IsRoot(s: Source)
  {
    s == Backdrop || s.Image?
  }

  /**
   * One effect object: its name (the prefix of its animatable keys), its input,
   * its scalar parameters and whether it draws with a hard border.
   */
  datatype Stage = Stage(name: StageName, source: Source, params: map<string, real>, hardBorder: bool)

  /** Stage s has the given name, exactly the given parameters and the given border mode. */
  ghost predicate StageIs(s: Stage, name: StageName, params: set<string>, hardBorder: bool)
  {
    s.name == name && s.params.Keys == params && s.hardBorder == hardBorder
  }

  /**
   * The fixed topology: five stages, each after the first reading from its
   * predecessor, each with its name and exactly its parameters, and only the
   * blur stage using a hard border.
   */
  ghost predicate Shape(c: seq<Stage>)
  {
    && |c| == 5
    && StageIs(c[0], SaturationEffect, {"Saturation"}, false)
    && StageIs(c[1], ContrastEffect, {"Contrast"}, false)
    && StageIs(c[2], ExposureEffect, {"Exposure"}, false)
    && StageIs(c[3], TemperatureAndTintEffect, {"Temperature", "Tint"}, false)
    && StageIs(c[4], BlurEffect, {"BlurAmount"}, true)
    && c[1].source == Upstream(SaturationEffect)
    && c[2].source == Upstream(ContrastEffect)
    && c[3].source == Upstream(ExposureEffect)
    && c[4].source == Upstream(TemperatureAndTintEffect)
  }

  /**
   * InitializeEffects: the chain Saturation -> Contrast -> Exposure ->
   * TemperatureAndTint -> Blur rooted at `root`, each stage seeded from `a`.
   */
  function BuildChain(a: Adjustments, root: Source): (c: seq<Stage>)
    ensures Shape(c)
    ensures c[0].source == root
    ensures ChainAdjustments(c) == a
  {
    [ Stage(SaturationEffect, root, map["Saturation" := a.saturation], false),
      Stage(ContrastEffect, Upstream(SaturationEffect), map["Contrast" := a.contrast], false),
      Stage(ExposureEffect, Upstream(ContrastEffect), map["Exposure" := a.exposure], false),
      Stage(TemperatureAndTintEffect, Upstream(ExposureEffect),
            map["Temperature" := a.temperature, "Tint" := a.tint], false),
      Stage(BlurEffect, Upstream(TemperatureAndTintEffect), map["BlurAmount" := a.blur], true) ]
  }

  /** The adjustment values a chain of the fixed shape currently carries. */
  function ChainAdjustments(c: seq<Stage>): Adjustments
    requires Shape(c)
  {
    Adjustments(
      exposure := c[2].params["Exposure"],
      blur := c[4].params["BlurAmount"],
      tint := c[3].params["Tint"],
      temperature := c[3].params["Temperature"],
      contrast := c[1].params["Contrast"],
      saturation := c[0].params["Saturation"])
  }

  /**
   * A chain of the fixed shape is fully described by its root and its values:
   * building a chain from them gives back the same chain.
   */
  lemma ChainRoundTrip(c: seq<Stage>)
    requires Shape(c)
    ensures BuildChain(ChainAdjustments(c), c[0].source) == c
  {
    var d := BuildChain(ChainAdjustments(c), c[0].source);
    assert d[0].params == c[0].params;
    assert d[1].params == c[1].params;
    assert d[2].params == c[2].params;
    assert d[3].params == c[3].params;
    assert d[4].params == c[4].params;
  }

  /** Replaces the input of stage i (the export sets the first stage's Source). */
  function WithSource(c: seq<Stage>, i: nat, s: Source): seq<Stage>
    requires i < |c|
  {
    c[i := c[i].(source := s)]
  }

  /** Assigns parameter `param` of stage i (the export copies each value into its stage). */
  function WithParameter(c: seq<Stage>, i: nat, param: string, v: real): seq<Stage>
    requires i < |c|
  {
    c[i := c[i].(params := c[i].params[param := v])]
  }

  /**
   * Export parity: re-rooting the first stage at a bitmap and copying every
   * current value into its stage, in the order the export does it, turns any
   * chain of the fixed shape -- whatever root and values it held -- into the
   * chain a fresh build from those values at that bitmap gives. Export thus
   * draws the same graph the live brush was compiled from, at another root.
   */
  lemma RerootAndCopy(c: seq<Stage>, image: Bitmap, a: Adjustments)
    requires Shape(c)
    ensures
      var c0 := WithSource(c, 0, Image(image));
      var c1 := WithParameter(c0, 1, "Contrast", a.contrast);
      var c2 := WithParameter(c1, 2, "Exposure", a.exposure);
      var c3 := WithParameter(c2, 3, "Temperature", a.temperature);
      var c4 := WithParameter(c3, 3, "Tint", a.tint);
      var c5 := WithParameter(c4, 0, "Saturation", a.saturation);
      WithParameter(c5, 4, "BlurAmount", a.blur) == BuildChain(a, Image(image))
  {
    var c0 := WithSource(c, 0, Image(image));
    var c1 := WithParameter(c0, 1, "Contrast", a.contrast);
    var c2 := WithParameter(c1, 2, "Exposure", a.exposure);
    var c3 := WithParameter(c2, 3, "Temperature", a.temperature);
    var c4 := WithParameter(c3, 3, "Tint", a.tint);
    var c5 := WithParameter(c4, 0, "Saturation", a.saturation);
    var c6 := WithParameter(c5, 4, "BlurAmount", a.blur);
    assert Shape(c6);
    ChainRoundTrip(c6);
  }

  // ---------------------------------------------------------------------------
  // Compiling the chain into a brush

  /**
   * The name under which a stage parameter is animatable, which the source
   * writes as the text "<Stage>.<Param>" (KeyText); kept here as its two parts.
   */
  datatype Key = Key(stage: StageName, param: string)

  /** The text of a key: the stage's name, a dot, the parameter name. */
  function KeyText(k: Key): (text: string)
    ensures |text| == |StageText(k.stage)| + 1 + |k.param|
    ensures text[..|StageText(k.stage)|] == StageText(k.stage) && text[|StageText(k.stage)|] == '.'
    ensures text[|StageText(k.stage)| + 1..] == k.param
  {
    StageText(k.stage) + "." + k.param
  }

  /** Stage names contain no dot, and distinct stages have distinct names. */
  lemma StageTextDistinct(m: StageName, n: StageName)
    ensures '.' !in StageText(m)
    ensures StageText(m) == StageText(n) ==> m == n
  {
  }

  /** Distinct keys have distinct texts, so keeping a key as its two parts loses nothing. */
  lemma KeyTextInjective(k1: Key, k2: Key)
    ensures KeyText(k1) == KeyText(k2) <==> k1 == k2
  {
    if KeyText(k1) == KeyText(k2) {
      var t, s1, s2 := KeyText(k1), StageText(k1.stage), StageText(k2.stage);
      StageTextDistinct(k1.stage, k2.stage);
      StageTextDistinct(k2.stage, k1.stage);
      assert s1 == t[..|s1|] == s2;
    }
  }

  /** The parameters of one stage under their keys. */
  function StageParameters(s: Stage): (m: map<Key, real>)
    ensures forall param :: param in s.params ==> Key(s.name, param) in m && m[Key(s.name, param)] == s.params[param]
    ensures forall k :: k in m ==> k.stage == s.name && k.param in s.params
  {
    map param | param in s.params :: Key(s.name, param) := s.params[param]
  }

  /** Every stage parameter of a chain under its key. */
  function ChainParameters(c: seq<Stage>): map<Key, real>
  {
    if c == [] then map[] else StageParameters(c[0]) + ChainParameters(c[1..])
  }

  /** The names the source registers with the effect factory as animatable. */
  const RegisteredKeys: seq<Key> := [
    Key(SaturationEffect, "Saturation"), Key(ExposureEffect, "Exposure"), Key(BlurEffect, "BlurAmount"),
    Key(TemperatureAndTintEffect, "Temperature"), Key(TemperatureAndTintEffect, "Tint"),
    Key(ContrastEffect, "Contrast")]

  /**
   * CreateEffectFactory(...).CreateBrush(): a brush exposing, as updatable
   * scalars, the registered parameters of the chain with their current values.
   * The factory demands that every registered name denotes a parameter of the chain.
   */
  function Compile(c: seq<Stage>, keys: seq<Key>): (brush: map<Key, real>)
    requires forall k :: k in keys ==> k in ChainParameters(c)
    ensures forall k :: k in brush <==> k in keys
    ensures forall k :: k in brush ==> brush[k] == ChainParameters(c)[k]
  {
    map k | k in keys :: ChainParameters(c)[k]
  }

  /** The brush key the change dispatch writes for each property. */
  function BrushKey(p: Adjustment): (key: Key)
    ensures key in RegisteredKeys
  {
    match p
    case Exposure => Key(ExposureEffect, "Exposure")
    case Temperature => Key(TemperatureAndTintEffect, "Temperature")
    case Tint => Key(TemperatureAndTintEffect, "Tint")
    case Contrast => Key(ContrastEffect, "Contrast")
    case Saturation => Key(SaturationEffect, "Saturation")
    case Blur => Key(BlurEffect, "BlurAmount")
  }

  /** Distinct properties are dispatched to distinct keys, and every registered key is some property's key. */
  lemma BrushKeyBijective()
    ensures forall p, q :: BrushKey(p) == BrushKey(q) ==> p == q
    ensures forall k :: k in RegisteredKeys ==> exists p :: BrushKey(p) == k
  {
    forall k | k in RegisteredKeys
      ensures exists p :: BrushKey(p) == k
    {
      if k == BrushKey(Saturation) {
      } else if k == BrushKey(Exposure) {
      } else if k == BrushKey(Blur) {
      } else if k == BrushKey(Temperature) {
      } else if k == BrushKey(Tint) {
      } else {
        assert k == BrushKey(Contrast);
      }
    }
  }

  /** A stage with a single parameter exposes exactly that parameter's key. */
  lemma SingleParameter(s: Stage, param: string)
    requires s.params.Keys == {param}
    ensures StageParameters(s) == map[Key(s.name, param) := s.params[param]]
  {
  }

  /** A stage with two parameters exposes exactly their two keys. */
  lemma TwoParameters(s: Stage, p1: string, p2: string)
    requires s.params.Keys == {p1, p2}
    ensures StageParameters(s) == map[Key(s.name, p1) := s.params[p1], Key(s.name, p2) := s.params[p2]]
  {
  }

  /** The chain's parameters as the five stages contribute them, first stage first. */
  function StagewiseParameters(a: Adjustments): map<Key, real>
  {
    map[Key(SaturationEffect, "Saturation") := a.saturation]
    + (map[Key(ContrastEffect, "Contrast") := a.contrast]
    + (map[Key(ExposureEffect, "Exposure") := a.exposure]
    + (map[Key(TemperatureAndTintEffect, "Temperature") := a.temperature,
           Key(TemperatureAndTintEffect, "Tint") := a.tint]
    + map[Key(BlurEffect, "BlurAmount") := a.blur])))
  }

  /** The parameters of a five-stage chain are those of its stages, first stage first. */
  lemma FiveStageParameters(c: seq<Stage>)
    requires |c| == 5
    ensures ChainParameters(c) == StageParameters(c[0]) + (StageParameters(c[1]) + (StageParameters(c[2])
              + (StageParameters(c[3]) + StageParameters(c[4]))))
  {
    var m4 := StageParameters(c[4]);
    assert c[4..][1..] == [];
    assert m4 + map[] == m4;
    assert ChainParameters(c[4..]) == m4;
    assert c[3..][1..] == c[4..];
    assert ChainParameters(c[3..]) == StageParameters(c[3]) + m4;
    assert c[2..][1..] == c[3..];
    assert ChainParameters(c[2..]) == StageParameters(c[2]) + ChainParameters(c[3..]);
    assert c[1..][1..] == c[2..];
  }

  /** The parameters of a built chain, stage by stage. */
  lemma BuiltChainParameterMap(a: Adjustments, root: Source)
    ensures ChainParameters(BuildChain(a, root)) == StagewiseParameters(a)
  {
    var c := BuildChain(a, root);
    SingleParameter(c[0], "Saturation");
    SingleParameter(c[1], "Contrast");
    SingleParameter(c[2], "Exposure");
    TwoParameters(c[3], "Temperature", "Tint");
    SingleParameter(c[4], "BlurAmount");
    FiveStageParameters(c);
  }

  /** The stage-wise parameters hold exactly the registered keys, each with its property's value. */
  lemma StagewiseLookup(a: Adjustments)
    ensures forall k :: k in StagewiseParameters(a) <==> k in RegisteredKeys
    ensures forall p :: StagewiseParameters(a)[BrushKey(p)] == Get(a, p)
  {
    var m := StagewiseParameters(a);
    assert m[Key(SaturationEffect, "Saturation")] == a.saturation;
    assert m[Key(ContrastEffect, "Contrast")] == a.contrast;
    assert m[Key(ExposureEffect, "Exposure")] == a.exposure && m[Key(BlurEffect, "BlurAmount")] == a.blur;
    assert m[Key(TemperatureAndTintEffect, "Temperature")] == a.temperature;
    assert m[Key(TemperatureAndTintEffect, "Tint")] == a.tint;
  }

  /**
   * The parameters of a built chain: exactly the six registered keys, each
   * holding the value of the property that the dispatch table routes to it.
   */
  lemma BuiltChainParameters(a: Adjustments, root: Source)
    ensures forall k :: k in ChainParameters(BuildChain(a, root)) <==> k in RegisteredKeys
    ensures forall p :: ChainParameters(BuildChain(a, root))[BrushKey(p)] == Get(a, p)
  {
    BuiltChainParameterMap(a, root);
    StagewiseLookup(a);
  }

  /** The brush a live compile produces from adjustment values `a`. */
  function LiveBrush(a: Adjustments): map<Key, real>
  {
    BuiltChainParameters(a, Backdrop);
    Compile(BuildChain(a, Backdrop), RegisteredKeys)
  }

  /** A brush mirrors `a` when it exposes exactly the registered keys and each holds its property's value. */
  ghost predicate Mirrors(brush: map<Key, real>, a: Adjustments)
  {
    && (forall k :: k in brush <==> k in RegisteredKeys)
    && (forall p :: brush[BrushKey(p)] == Get(a, p))
  }

  /** The compiled brush of a chain built from `a`, whatever its root, mirrors `a`. */
  lemma CompiledBrushMirrors(a: Adjustments, root: Source)
    ensures forall k :: k in RegisteredKeys ==> k in ChainParameters(BuildChain(a, root))
    ensures Mirrors(Compile(BuildChain(a, root), RegisteredKeys), a)
  {
    BuiltChainParameters(a, root);
  }

  /** Mirroring `a` determines the brush: it is the live compile of `a`. */
  lemma MirrorsLiveBrush(brush: map<Key, real>, a: Adjustments)
    ensures Mirrors(brush, a) <==> brush == LiveBrush(a)
  {
    CompiledBrushMirrors(a, Backdrop);
    if Mirrors(brush, a) {
      BrushKeyBijective();
      var live := LiveBrush(a);
      forall k | k in brush
        ensures brush[k] == live[k]
      {
        var p :| BrushKey(p) == k;
      }
    }
  }

  // ---------------------------------------------------------------------------
  // Change dispatch

  /**
   * UpdateEffectBrush on a compiled brush: a recognised property name writes
   * that property's current value under its one key; any other name changes nothing.
   */
  function Dispatch(brush: map<Key, real>, propertyName: string, a: Adjustments): (r: map<Key, real>)
    ensures PropertyOf(propertyName).None? ==> r == brush
    ensures PropertyOf(propertyName).Some? ==>
              var p := PropertyOf(propertyName).value;
              && (forall k :: k in r <==> k in brush || k == BrushKey(p))
              && r[BrushKey(p)] == Get(a, p)
              && (forall k :: k in brush && k != BrushKey(p) ==> r[k] == brush[k])
  {
    match PropertyOf(propertyName)
    case None => brush
    case Some(p) => brush[BrushKey(p) := Get(a, p)]
  }

  /**
   * After the setter of p assigns v, dispatching the notification brings a brush
   * that mirrored the old values to mirror the new ones: the live brush stays in
   * step with the item without a recompile.
   */
  lemma DispatchAfterSet(a: Adjustments, p: Adjustment, v: real)
    ensures Dispatch(LiveBrush(a), Name(p), Set(a, p, v)) == LiveBrush(Set(a, p, v))
  {
    var a' := Set(a, p, v);
    var b := Dispatch(LiveBrush(a), Name(p), a');
    PropertyOfName(p);
    MirrorsLiveBrush(LiveBrush(a), a);
    BrushKeyBijective();
    assert Mirrors(b, a') by {
      forall q
        ensures b[BrushKey(q)] == Get(a', q)
      {
        if q != p {
          assert BrushKey(q) != BrushKey(p);
        }
      }
    }
    MirrorsLiveBrush(b, a');
  }

  /** Dispatching any name with the values the brush already mirrors changes nothing. */
  lemma DispatchCurrent(a: Adjustments, propertyName: string)
    ensures Dispatch(LiveBrush(a), propertyName, a) == LiveBrush(a)
  {
    MirrorsLiveBrush(LiveBrush(a), a);
  }

  /** Writing property p's new value under its key keeps a mirroring brush mirroring. */
  lemma MirrorsAfterWrite(brush: map<Key, real>, a: Adjustments, p: Adjustment, v: real)
    requires Mirrors(brush, a)
    ensures Mirrors(brush[BrushKey(p) := v], Set(a, p, v))
  {
  }

  /** Writing a value a mirroring brush already holds leaves it unchanged. */
  lemma MirrorsRewrite(brush: map<Key, real>, a: Adjustments, p: Adjustment)
    requires Mirrors(brush, a)
    ensures brush[BrushKey(p) := Get(a, p)] == brush
  {
  }

  /**
   * The six writes the notifications of ResetEffects make to a compiled brush,
   * in the order its setters run.
   */
  function ResetWrites(brush: map<Key, real>): map<Key, real>
  {
    brush[BrushKey(Contrast) := 0.0][BrushKey(Temperature) := 0.0][BrushKey(Tint) := 0.0]
         [BrushKey(Blur) := 0.0][BrushKey(Exposure) := 0.0][BrushKey(Saturation) := 1.0]
  }

  /** The reset's six writes make any brush with the registered keys mirror the neutral values. */
  lemma ResetOverwrites(brush: map<Key, real>)
    requires forall k :: k in brush <==> k in RegisteredKeys
    ensures Mirrors(ResetWrites(brush), Neutral)
  {
  }
}

/**
 * The composite preview: a selection becomes an ordered list of layers,
 * painted back to front.
 */
module Preview {
  import opened Registry
  import opened Layers

  /** The layers of the scene. */
  datatype LayerKind =
    | BackgroundFill | PatternDots | BodyShadow | BodyBase | EarShapes | HairShapes
    | Snout | EyeShapes | MouthShapes | AccessoryShapes | ClothesShapes

  datatype Layer = Layer(kind: LayerKind, shapes: Fragment)

  type Scene = seq<Layer>

  /** The design's paint order, back to front. */
  const PaintOrder: seq<LayerKind> := [
    BackgroundFill, PatternDots, BodyShadow, BodyBase, EarShapes, HairShapes,
    Snout, EyeShapes, MouthShapes, AccessoryShapes, ClothesShapes
  ]

  /** Where a layer stands in the paint order: lower is painted earlier. */
  function Rank(k: LayerKind): (i: nat)
    ensures i < |PaintOrder| && PaintOrder[i] == k
  {
    match k
    case BackgroundFill => 0
    case PatternDots => 1
    case BodyShadow => 2
    case BodyBase => 3
    case EarShapes => 4
    case HairShapes => 5
    case Snout => 6
    case EyeShapes => 7
    case MouthShapes => 8
    case AccessoryShapes => 9
    case ClothesShapes => 10
  }

  /** Every layer occurs exactly once in the paint order; background is at the
      back, clothes at the front, and the ears directly below the hair, above
      the body. */
  lemma {:induction false} PaintOrderFixed(k: LayerKind, i: nat)
    requires i < |PaintOrder|
    ensures PaintOrder[i] == k <==> i == Rank(k)
    ensures Rank(BackgroundFill) == 0 && Rank(ClothesShapes) == |PaintOrder| - 1
    ensures Rank(HairShapes) == Rank(EarShapes) + 1 && Rank(BodyBase) < Rank(EarShapes)
  {
    assert PaintOrder[Rank(k)] == k;
  }

  /** The categories a layer's shapes depend on. */
  function Reads(k: LayerKind): set<Category>
  {
    match k
    case BackgroundFill => {Background}
    case BodyBase => {Fur}
    case EarShapes => {Ears, Fur}
    case HairShapes => {Hair, Fur}
    case EyeShapes => {Eyes}
    case MouthShapes => {Mouth}
    case AccessoryShapes => {Accessory}
    case ClothesShapes => {Clothes}
    case _ => {}
  }

  const PatternCount: nat := 12

  /** The decorative dot pattern: twelve small dots, 35 apart, alternating
      between two rows; fixed, not random. */
  function Pattern(): (r: Fragment)
    ensures |r| == PatternCount
    ensures forall i :: 0 <= i < |r| ==>
      r[i] == Circle(20 + 35 * i, if i % 2 == 0 then 20 else 40, 6, Paint("#111827"), Unset)
  {
    seq(PatternCount, i => Circle(20 + i * 35, 20 + (i % 2) * 20, 6, Paint("#111827"), Unset))
  }

  /** No two pattern dots overlap. */
  lemma PatternDotsApart(i: nat, j: nat)
    requires i < j < PatternCount
    ensures Pattern()[j].cx - Pattern()[i].cx >= 35 > 2 * Pattern()[i].r
  {
  }

  /** Body, neck and face, all fur coloured. */
  function BodyShapes(fur: string): (r: Fragment)
  {
    [Ellipse(200, 250, 90, 90, Paint(fur), Ink), Rect(180, 180, 40, 60, 12, Paint(fur), Ink), Ellipse(200, 140, 70, 60, Paint(fur), Ink)]
  }

  /** The shapes of the layer of kind `k`, for selection `s`. */
  function LayerShapes(k: LayerKind, s: Selection): (r: Fragment)
    requires IsTotal(s)
  {
    match k
    case BackgroundFill => [Rect(0, 0, 400, 400, 0, Paint(s[Background]), Unset)]
    case PatternDots => Pattern()
    case BodyShadow => [Ellipse(200, 330, 120, 22, Black, Unset)]
    case BodyBase => BodyShapes(s[Fur])
    case EarShapes => EarsLayer(s[Ears], s[Fur])
    case HairShapes => HairLayer(s[Hair], s[Fur])
    case Snout => [Ellipse(220, 185, 30, 20, Paint("#FDE68A"), Ink), Circle(212, 182, 3, Ink, Unset), Circle(228, 182, 3, Ink, Unset)]
    case EyeShapes => EyesLayer(s[Eyes])
    case MouthShapes => MouthLayer(s[Mouth])
    case AccessoryShapes => AccessoryLayer(s[Accessory])
    case ClothesShapes => ClothesLayer(s[Clothes])
  }

  /** The scene for a selection: every layer once, in paint order. */
  function Compose(s: Selection): (scene: Scene)
    requires IsTotal(s)
    ensures |scene| == |PaintOrder|
    ensures forall i :: 0 <= i < |scene| ==> scene[i].kind == PaintOrder[i]
    ensures forall k :: scene[Rank(k)] == Layer(k, LayerShapes(k, s))
  {
    seq(|PaintOrder|, i requires 0 <= i < |PaintOrder| => Layer(PaintOrder[i], LayerShapes(PaintOrder[i], s)))
  }

  /** A layer depends on the categories `Reads` names and on nothing else:
      changing any other category leaves it as it was. */
  lemma ComposeReadsOnly(s: Selection, c: Category, v: string, i: nat)
    requires IsTotal(s) && i < |PaintOrder|
    requires c !in Reads(PaintOrder[i])
    ensures IsTotal(s[c := v]) && Compose(s[c := v])[i] == Compose(s)[i]
  {
    var t := s[c := v];
    assert forall d: Category :: d != c ==> t[d] == s[d];
    assert LayerShapes(PaintOrder[i], t) == LayerShapes(PaintOrder[i], s) by {
      match PaintOrder[i]
      case BackgroundFill =>
      case PatternDots =>
      case BodyShadow =>
      case BodyBase =>
      case EarShapes =>
      case HairShapes =>
      case Snout =>
      case EyeShapes =>
      case MouthShapes =>
      case AccessoryShapes =>
      case ClothesShapes =>
    }
  }

  /** The layer that shows category `c`; it reads `c`. */
  function Shows(c: Category): (k: LayerKind)
    ensures c in Reads(k)
  {
    match c
    case Background => BackgroundFill
    case Fur => BodyBase
    case Ears => EarShapes
    case Hair => HairShapes
    case Eyes => EyeShapes
    case Mouth => MouthShapes
    case Clothes => ClothesShapes
    case Accessory => AccessoryShapes
  }

  /** The layer `Shows(c)` tells every registered option of `c` apart. */
  lemma LayerDecides(s: Selection, t: Selection, c: Category)
    requires IsTotal(s) && IsTotal(t)
    requires s[c] in Ids(c) && t[c] in Ids(c)
    requires LayerShapes(Shows(c), s) == LayerShapes(Shows(c), t)
    ensures s[c] == t[c]
  {
    if c == Background || c == Fur {
      ColourLayerDecides(s, t, c);
    } else if c == Ears || c == Hair || c == Eyes {
      HeadLayerDecides(s, t, c);
    } else {
      OutfitLayerDecides(s, t, c);
    }
  }

  /** The backdrop and the body are filled with the picked colour. */
  lemma ColourLayerDecides(s: Selection, t: Selection, c: Category)
    requires IsTotal(s) && IsTotal(t) && (c == Background || c == Fur)
    requires LayerShapes(Shows(c), s) == LayerShapes(Shows(c), t)
    ensures s[c] == t[c]
  {
    var a, b := s[c], t[c];
    if c == Background {
      assert [Rect(0, 0, 400, 400, 0, Paint(a), Unset)] == [Rect(0, 0, 400, 400, 0, Paint(b), Unset)];
    } else {
      assert BodyShapes(a) == BodyShapes(b);
      assert BodyShapes(a)[0].fill == Paint(a);
    }
  }

  /** The ears, hair and eye layers tell their registered options apart. */
  lemma HeadLayerDecides(s: Selection, t: Selection, c: Category)
    requires IsTotal(s) && IsTotal(t) && (c == Ears || c == Hair || c == Eyes)
    requires s[c] in Ids(c) && t[c] in Ids(c)
    requires LayerShapes(Shows(c), s) == LayerShapes(Shows(c), t)
    ensures s[c] == t[c]
  {
    if c == Ears {
      EarsSeparate(s[c], t[c], s[Fur], t[Fur]);
    } else if c == Hair {
      HairSeparate(s[c], t[c], s[Fur], t[Fur]);
    } else {
      EyesSeparate(s[c], t[c]);
    }
  }

  /** The mouth, clothes and accessory layers tell their registered options apart. */
  lemma OutfitLayerDecides(s: Selection, t: Selection, c: Category)
    requires IsTotal(s) && IsTotal(t) && (c == Mouth || c == Clothes || c == Accessory)
    requires s[c] in Ids(c) && t[c] in Ids(c)
    requires LayerShapes(Shows(c), s) == LayerShapes(Shows(c), t)
    ensures s[c] == t[c]
  {
    if c == Mouth {
      MouthSeparate(s[c], t[c]);
    } else if c == Clothes {
      ClothesSeparate(s[c], t[c]);
    } else {
      AccessorySeparate(s[c], t[c]);
    }
  }

  /** Different valid selections give different scenes: every registered
      option of every category is visible in the picture. */
  lemma ComposeOneToOne(s: Selection, t: Selection)
    requires IsValid(s) && IsValid(t)
    requires Compose(s) == Compose(t)
    ensures s == t
  {
    forall c: Category ensures c in s && c in t && s[c] == t[c] {
      assert Compose(s)[Rank(Shows(c))] == Compose(t)[Rank(Shows(c))];
      LayerDecides(s, t, c);
    }
    SameSelection(s, t);
  }

  /** Picking a different registered option changes the scene, and changes
      only the layers that depend on the picked category. */
  lemma PickRedrawsOnlyItsLayers(s: Selection, c: Category, v: string)
    requires IsValid(s) && v in Ids(c) && v != s[c]
    ensures IsValid(s[c := v]) && Compose(s[c := v]) != Compose(s)
    ensures forall i :: 0 <= i < |PaintOrder| && c !in Reads(PaintOrder[i]) ==>
      Compose(s[c := v])[i] == Compose(s)[i]
  {
    var t := s[c := v];
    assert IsValid(t);
    if Compose(t) == Compose(s) {
      ComposeOneToOne(t, s);
    }
    forall i | 0 <= i < |PaintOrder| && c !in Reads(PaintOrder[i]) ensures Compose(t)[i] == Compose(s)[i] {
      ComposeReadsOnly(s, c, v, i);
    }
  }

  /** The shapes of a scene in document (painting) order. */
  function Flatten(scene: Scene): (r: Fragment)
  {
    if scene == [] then [] else scene[0].shapes + Flatten(scene[1..])
  }

  lemma {:induction false} FlattenAppend(a: Scene, b: Scene)
    ensures Flatten(a + b) == Flatten(a) + Flatten(b)
  {
    if a == [] {
      assert a + b == b;
    } else {
      assert (a + b)[1..] == a[1..] + b;
      FlattenAppend(a[1..], b);
    }
  }

  /** The clothes are the last shapes painted, so they cover everything
      else; the background rectangle is the first. */
  lemma ClothesPaintedLast(s: Selection)
    requires IsTotal(s)
    ensures Flatten(Compose(s)) == Flatten(Compose(s)[..|PaintOrder| - 1]) + ClothesLayer(s[Clothes])
    ensures Flatten(Compose(s))[0] == Rect(0, 0, 400, 400, 0, Paint(s[Background]), Unset)
  {
    var scene := Compose(s);
    var n := |PaintOrder| - 1;
    assert scene == scene[..n] + [scene[n]];
    FlattenAppend(scene[..n], [scene[n]]);
    assert Flatten([scene[n]]) == scene[n].shapes + Flatten([]);
  }

  /** The startup picture: first background and fur colours, pointy ears,
      poof hair, happy eyes, a smile, and no accessory or clothes. */
  lemma DefaultScene()
    ensures IsTotal(Default)
    ensures Compose(Default)[Rank(BackgroundFill)].shapes == [Rect(0, 0, 400, 400, 0, Paint(BgColors[0]), Unset)]
    ensures Compose(Default)[Rank(BodyBase)].shapes == BodyShapes(FurColors[0])
    ensures Compose(Default)[Rank(EarShapes)].shapes == EarsLayer("pointy", FurColors[0])
    ensures Compose(Default)[Rank(HairShapes)].shapes == HairLayer("poof", FurColors[0])
    ensures Compose(Default)[Rank(EyeShapes)].shapes == EyesLayer("happy")
    ensures Compose(Default)[Rank(MouthShapes)].shapes == MouthLayer("smile")
    ensures Compose(Default)[Rank(AccessoryShapes)].shapes == []
    ensures Compose(Default)[Rank(ClothesShapes)].shapes == []
  {
    DefaultValid();
    DefaultLayers(Default);
    DefaultFaceLayers(Default);
  }

  lemma DefaultLayers(d: Selection)
    requires d == Default && IsTotal(d)
    ensures Compose(d)[Rank(BackgroundFill)].shapes == [Rect(0, 0, 400, 400, 0, Paint(BgColors[0]), Unset)]
    ensures Compose(d)[Rank(BodyBase)].shapes == BodyShapes(FurColors[0])
    ensures Compose(d)[Rank(EarShapes)].shapes == EarsLayer("pointy", FurColors[0])
    ensures Compose(d)[Rank(HairShapes)].shapes == HairLayer("poof", FurColors[0])
  {
  }

  lemma DefaultFaceLayers(d: Selection)
    requires d == Default && IsTotal(d)
    ensures Compose(d)[Rank(EyeShapes)].shapes == EyesLayer("happy")
    ensures Compose(d)[Rank(MouthShapes)].shapes == MouthLayer("smile")
    ensures Compose(d)[Rank(AccessoryShapes)].shapes == []
    ensures Compose(d)[Rank(ClothesShapes)].shapes == []
  {
  }
}

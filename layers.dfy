/**
 * The vector drawing fragments and the six per-category layer renderers.
 * A fragment is the sequence of shapes a renderer contributes, in document
 * order; an empty fragment contributes nothing to the picture.
 */
module Layers {
  import opened Registry

  /** A fill or stroke attribute: absent, or an (unchecked) colour string. */
  datatype Paint = Unset | Paint(colour: string)

  datatype Point = Point(x: int, y: int)

  /** The SVG primitives the avatar is drawn with. Colours are opaque strings;
      `"none"` is a colour string like any other. */
  datatype Shape =
    | Circle(cx: int, cy: int, r: int, fill: Paint, stroke: Paint)
    | Ellipse(cx: int, cy: int, rx: int, ry: int, fill: Paint, stroke: Paint)
    | Rect(x: int, y: int, width: int, height: int, rx: int, fill: Paint, stroke: Paint)
    | Polygon(points: seq<Point>, fill: Paint, stroke: Paint)
    | Path(d: string, fill: Paint, stroke: Paint)
    | Line(x1: int, y1: int, x2: int, y2: int, fill: Paint, stroke: Paint)

  type Fragment = seq<Shape>

  const Ink: Paint := Paint(Accent)
  const Black: Paint := Paint("#000")
  const NoFill: Paint := Paint("none")

  /** Ears: "round" and "floppy" are recognised; anything else gets pointy ears. */
  function EarsLayer(variant: string, fur: string): (r: Fragment)
    ensures |r| == 2
    ensures forall i :: 0 <= i < |r| ==> r[i].stroke == Ink
    ensures variant != "floppy" ==> forall i :: 0 <= i < |r| ==> r[i].fill == Paint(fur)
  {
    if variant == "round" then
      [Ellipse(120, 85, 28, 22, Paint(fur), Ink), Ellipse(280, 85, 28, 22, Paint(fur), Ink)]
    else if variant == "floppy" then
      [Path("M100 80 q-30 40 10 50", NoFill, Ink), Path("M300 80 q30 40 -10 50", NoFill, Ink)]
    else
      [Polygon([Point(100, 85), Point(130, 20), Point(150, 95)], Paint(fur), Ink),
       Polygon([Point(300, 85), Point(270, 20), Point(250, 95)], Paint(fur), Ink)]
  }

  /** Hair: "none" draws nothing, "poof" and "bangs" are recognised, anything
      else gets the mohawk. All hair is fur coloured and outlined in ink. */
  function HairLayer(variant: string, fur: string): (r: Fragment)
    ensures r == [] <==> variant == "none"
    ensures forall i :: 0 <= i < |r| ==> r[i].fill == Paint(fur) && r[i].stroke == Ink
  {
    if variant == "none" then []
    else if variant == "poof" then
      [Circle(200, 95, 34, Paint(fur), Ink), Circle(165, 100, 30, Paint(fur), Ink), Circle(235, 100, 30, Paint(fur), Ink)]
    else if variant == "bangs" then
      [Path("M150 110 q30 -30 50 0 q30 -30 50 0", Paint(fur), Ink)]
    else
      [Rect(185, 60, 30, 70, 10, Paint(fur), Ink)]
  }

  /** Eyes: "sleepy", "round" and "winky" are recognised; anything else gets
      the happy eyes (two pupils with highlights). There are always two eyes. */
  function EyesLayer(variant: string): (r: Fragment)
    ensures |r| >= 2
  {
    if variant == "sleepy" then
      [Path("M160 160 q20 -10 40 0", Unset, Ink), Path("M240 160 q20 -10 40 0", Unset, Ink)]
    else if variant == "round" then
      [Circle(180, 160, 12, Black, Unset), Circle(260, 160, 12, Black, Unset)]
    else if variant == "winky" then
      [Circle(180, 160, 10, Black, Unset), Path("M245 160 q15 -10 30 0", Unset, Ink)]
    else
      [Circle(180, 160, 8, Black, Unset), Circle(260, 160, 8, Black, Unset),
       Circle(176, 156, 3, Paint("#fff"), Unset), Circle(256, 156, 3, Paint("#fff"), Unset)]
  }

  /** Mouth: "open", "tongue" and "smirk" are recognised; anything else smiles.
      Every mouth starts with an unfilled ink stroke. */
  function MouthLayer(variant: string): (r: Fragment)
    ensures |r| > 0 && r[0].Path? && r[0].fill == NoFill && r[0].stroke == Ink
  {
    if variant == "open" then
      [Path("M200 200 q30 20 60 0", NoFill, Ink)]
    else if variant == "tongue" then
      [Path("M200 200 q30 20 60 0", NoFill, Ink), Path("M230 200 q15 20 30 0", Paint("#F87171"), Unset)]
    else if variant == "smirk" then
      [Path("M210 205 q25 15 50 0", NoFill, Ink)]
    else
      [Path("M200 205 q30 15 60 0", NoFill, Ink)]
  }

  /** Clothes: "none" draws nothing, "scarf" and "hoodie" are recognised,
      anything else gets the tee. Clothing is always outlined in ink. */
  function ClothesLayer(variant: string): (r: Fragment)
    ensures r == [] <==> variant == "none"
    ensures forall i :: 0 <= i < |r| ==> r[i].stroke == Ink
  {
    if variant == "none" then []
    else if variant == "scarf" then
      [Path("M140 240 q60 -20 120 0", Paint("#38BDF8"), Ink), Rect(195, 238, 24, 60, 6, Paint("#38BDF8"), Ink)]
    else if variant == "hoodie" then
      [Rect(120, 230, 160, 80, 20, Paint("#A78BFA"), Ink), Path("M130 230 q70 -30 140 0", Paint("#C4B5FD"), Ink)]
    else
      [Rect(130, 250, 140, 50, 12, Paint("#60A5FA"), Ink)]
  }

  /** Accessory: "none" draws nothing, "round-glasses" and "sunnies" are
      recognised, anything else gets the earring. */
  function AccessoryLayer(variant: string): (r: Fragment)
    ensures r == [] <==> variant == "none"
  {
    if variant == "none" then []
    else if variant == "round-glasses" then
      [Circle(180, 160, 18, NoFill, Ink), Circle(260, 160, 18, NoFill, Ink), Line(198, 160, 242, 160, NoFill, Ink)]
    else if variant == "sunnies" then
      [Rect(162, 148, 36, 22, 4, Paint("#111827"), Unset), Rect(242, 148, 36, 22, 4, Paint("#111827"), Unset),
       Rect(198, 156, 44, 6, 3, Paint("#111827"), Unset)]
    else
      [Circle(290, 200, 6, Paint("#F59E0B"), Ink)]
  }

  /** Each renderer's fallback: an unrecognised variant renders exactly like
      the fallback variant, which is itself a registered option. */
  lemma EarsFallback(v: string, fur: string)
    requires v != "round" && v != "floppy"
    ensures EarsLayer(v, fur) == EarsLayer("pointy", fur) && "pointy" in Ids(Ears)
  {
    assert Ids(Ears)[0] == "pointy";
  }

  lemma HairFallback(v: string, fur: string)
    requires v != "none" && v != "poof" && v != "bangs"
    ensures HairLayer(v, fur) == HairLayer("mohawk", fur) && "mohawk" in Ids(Hair)
  {
    assert Ids(Hair)[2] == "mohawk";
  }

  lemma EyesFallback(v: string)
    requires v != "sleepy" && v != "round" && v != "winky"
    ensures EyesLayer(v) == EyesLayer("happy") && "happy" in Ids(Eyes)
  {
    assert Ids(Eyes)[0] == "happy";
  }

  lemma MouthFallback(v: string)
    requires v != "open" && v != "tongue" && v != "smirk"
    ensures MouthLayer(v) == MouthLayer("smile") && "smile" in Ids(Mouth)
  {
    assert Ids(Mouth)[0] == "smile";
  }

  lemma ClothesFallback(v: string)
    requires v != "none" && v != "scarf" && v != "hoodie"
    ensures ClothesLayer(v) == ClothesLayer("tee") && "tee" in Ids(Clothes)
  {
    assert Ids(Clothes)[3] == "tee";
  }

  lemma AccessoryFallback(v: string)
    requires v != "none" && v != "round-glasses" && v != "sunnies"
    ensures AccessoryLayer(v) == AccessoryLayer("earring") && "earring" in Ids(Accessory)
  {
    assert Ids(Accessory)[3] == "earring";
  }

  /** Distinct registered options of a category render distinct fragments,
      whatever the fur colour: a pick is always visible in the picture. */
  lemma EarsSeparate(a: string, b: string, f: string, g: string)
    requires a in Ids(Ears) && b in Ids(Ears) && EarsLayer(a, f) == EarsLayer(b, g)
    ensures a == b
  {
  }

  lemma HairSeparate(a: string, b: string, f: string, g: string)
    requires a in Ids(Hair) && b in Ids(Hair) && HairLayer(a, f) == HairLayer(b, g)
    ensures a == b
  {
  }

  lemma EyesSeparate(a: string, b: string)
    requires a in Ids(Eyes) && b in Ids(Eyes) && EyesLayer(a) == EyesLayer(b)
    ensures a == b
  {
  }

  lemma MouthSeparate(a: string, b: string)
    requires a in Ids(Mouth) && b in Ids(Mouth) && MouthLayer(a) == MouthLayer(b)
    ensures a == b
  {
  }

  lemma ClothesSeparate(a: string, b: string)
    requires a in Ids(Clothes) && b in Ids(Clothes) && ClothesLayer(a) == ClothesLayer(b)
    ensures a == b
  {
  }

  lemma AccessorySeparate(a: string, b: string)
    requires a in Ids(Accessory) && b in Ids(Accessory) && AccessoryLayer(a) == AccessoryLayer(b)
    ensures a == b
  {
  }
}

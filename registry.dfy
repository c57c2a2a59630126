/**
 * The option registry of the alpaca avatar generator: the closed set of
 * customisation categories, the options registered for each, the default
 * selection, and what a (valid) selection is.
 */
module Registry {

  /** The eight customisable aspects of the avatar. */
  datatype Category = Background | Fur | Ears | Hair | Eyes | Mouth | Clothes | Accessory

  /** One selectable value: `id` is what the renderers read, `name` is the display label. */
  datatype Option = Option(id: string, name: string)

  /** A selection maps categories to option ids. */
  type Selection = map<Category, string>

  /** The categories in declaration order of the option table (the order
      `randomize` visits them in). */
  const Categories: seq<Category> := [Background, Fur, Ears, Hair, Eyes, Mouth, Clothes, Accessory]

  /** Where a category stands in `Categories`. */
  function Position(c: Category): (j: nat)
    ensures j < |Categories| && Categories[j] == c
  {
    match c
    case Background => 0
    case Fur => 1
    case Ears => 2
    case Hair => 3
    case Eyes => 4
    case Mouth => 5
    case Clothes => 6
    case Accessory => 7
  }

  /** `Categories` lists every category exactly once. */
  lemma {:induction false} CategoriesEnumerate(c: Category, j: nat)
    requires j < |Categories|
    ensures c in Categories
    ensures Categories[j] == c <==> j == Position(c)
  {
    assert Categories[Position(c)] == c;
  }

  const BgColors: seq<string> := [
    "#F1F5F9", "#E2E8F0", "#FEF3C7", "#DCFCE7", "#E0E7FF",
    "#FFE4E6", "#F5F3FF", "#FFEDD5", "#E5E7EB"
  ]

  const FurColors: seq<string> := [
    "#F4E1C1", "#E8D0A9", "#D8B384", "#C69C6D", "#A2795B", "#6B4F3A", "#EEE1D5"
  ]

  /** The line-art colour. */
  const Accent: string := "#1F2937"

  /** The decimal numeral of `n`. */
  function Decimal(n: nat): (s: string)
    decreases n
  {
    if n < 10 then [('0' as int + n) as char] else Decimal(n / 10) + Decimal(n % 10)
  }

  /** The ids registered for each category, in display order: the palette
      colours for the two colour categories, variant keywords for the rest. */
  function Ids(c: Category): (ids: seq<string>)
    ensures |ids| > 0
  {
    match c
    case Background => BgColors
    case Fur => FurColors
    case Ears => ["pointy", "round", "floppy"]
    case Hair => ["poof", "bangs", "mohawk", "none"]
    case Eyes => ["happy", "sleepy", "round", "winky"]
    case Mouth => ["smile", "smirk", "open", "tongue"]
    case Clothes => ["none", "scarf", "hoodie", "tee"]
    case Accessory => ["none", "round-glasses", "sunnies", "earring"]
  }

  /** `prefix` followed by the 1-based position, for each of `n` swatches. */
  function Numbered(prefix: string, n: nat): (r: seq<string>)
    ensures |r| == n && forall i :: 0 <= i < n ==> r[i] == prefix + Decimal(i + 1)
  {
    seq(n, i requires 0 <= i < n => prefix + Decimal(i + 1))
  }

  /** The display labels of each category's options, in the same order. */
  function Labels(c: Category): (labels: seq<string>)
    ensures |labels| == |Ids(c)|
  {
    match c
    case Background => Numbered("Color ", |BgColors|)
    case Fur => Numbered("Fur ", |FurColors|)
    case Ears => ["Pointy", "Round", "Floppy"]
    case Hair => ["Poof", "Bangs", "Mohawk", "None"]
    case Eyes => ["Happy", "Sleepy", "Round", "Winky"]
    case Mouth => ["Smile", "Smirk", "Open", "Tongue"]
    case Clothes => ["None", "Scarf", "Hoodie", "T\U{2011}Shirt"]
    case Accessory => ["None", "Round Glasses", "Sunglasses", "Earring"]
  }

  /** The options offered for each category, in display order: at least one,
      the i-th carrying the i-th id and label. */
  function Options(c: Category): (r: seq<Option>)
    ensures |r| == |Ids(c)| > 0
    ensures forall i :: 0 <= i < |r| ==> r[i] == Option(Ids(c)[i], Labels(c)[i])
  {
    seq(|Ids(c)|, i requires 0 <= i < |Ids(c)| => Option(Ids(c)[i], Labels(c)[i]))
  }

  predicate Distinct(s: seq<string>)
  {
    forall i, j :: 0 <= i < j < |s| ==> s[i] != s[j]
  }

  /** Within each category no id is registered twice. */
  lemma IdsDistinct(c: Category)
    ensures Distinct(Ids(c))
  {
    match c
    case Background => assert Distinct(BgColors);
    case Fur => assert Distinct(FurColors);
    case _ =>
  }

  /** Every category has a value. */
  predicate IsTotal(s: Selection)
  {
    forall c: Category :: c in s
  }

  /** Every category has a value, and it is one of that category's registered ids. */
  predicate IsValid(s: Selection)
  {
    forall c: Category :: c in s && s[c] in Ids(c)
  }

  /** The startup selection. */
  const Default: Selection := map[
    Background := BgColors[0],
    Fur := FurColors[0],
    Ears := "pointy",
    Hair := "poof",
    Eyes := "happy",
    Mouth := "smile",
    Clothes := "none",
    Accessory := "none"
  ]

  /** An index vector for the random draws: one index per category, in the
      order of `Categories`, each below that category's option count. */
  predicate InRange(draws: seq<nat>)
  {
    |draws| == |Categories| && forall j :: 0 <= j < |draws| ==> draws[j] < |Ids(Categories[j])|
  }

  /** The id drawn for category `c`. */
  function Draw(draws: seq<nat>, c: Category): (id: string)
    requires InRange(draws)
    ensures id in Ids(c)
  {
    Ids(c)[draws[Position(c)]]
  }

  /** The selection that assigns every category the option its draw indexes. */
  function Drawn(draws: seq<nat>): (s: Selection)
    requires InRange(draws)
    ensures IsValid(s)
    ensures forall j :: 0 <= j < |Categories| ==> s[Categories[j]] == Ids(Categories[j])[draws[j]]
  {
    var s := map c | c in Categories :: Draw(draws, c);
    assert forall c: Category :: c in s by {
      forall c: Category ensures c in s { CategoriesEnumerate(c, 0); }
    }
    assert forall j :: 0 <= j < |Categories| ==> Position(Categories[j]) == j by {
      forall j | 0 <= j < |Categories| ensures Position(Categories[j]) == j {
        CategoriesEnumerate(Categories[j], j);
      }
    }
    s
  }

  /** The draw vector that picks the first option everywhere. */
  const FirstDraws: seq<nat> := [0, 0, 0, 0, 0, 0, 0, 0]

  /** Two total selections that agree on every category are equal. */
  lemma SameSelection(a: Selection, b: Selection)
    requires forall c: Category :: c in a && c in b && a[c] == b[c]
    ensures a == b
  {
    assert a.Keys == b.Keys;
  }

  /** The default selection is the one that draws the first option of every category. */
  lemma DefaultIsFirstOptions()
    ensures InRange(FirstDraws)
    ensures Default == Drawn(FirstDraws)
  {
    var zeros := FirstDraws;
    var d := Drawn(zeros);
    forall c: Category ensures c in d && d[c] == Default[c] {
      calc {
        d[c];
        Draw(zeros, c);
        Ids(c)[0];
        { FirstIdIsDefault(c); }
        Default[c];
      }
    }
    SameSelection(d, Default);
  }

  lemma FirstIdIsDefault(c: Category)
    ensures c in Default && Ids(c)[0] == Default[c]
  {
    match c
    case Background =>
    case Fur =>
    case Ears =>
    case Hair =>
    case Eyes =>
    case Mouth =>
    case Clothes =>
    case Accessory =>
  }

  /** Hence the default selection is valid. */
  lemma DefaultValid()
    ensures IsValid(Default)
  {
    DefaultIsFirstOptions();
  }

  /** The position of `x` in `xs`. */
  function IndexOf(xs: seq<string>, x: string): (i: nat)
    requires x in xs
    ensures i < |xs| && xs[i] == x
    ensures forall k :: 0 <= k < i ==> xs[k] != x
  {
    if xs[0] == x then 0 else 1 + IndexOf(xs[1..], x)
  }

  /** Every valid selection is the outcome of exactly one in-range draw vector:
      here, of at least one. */
  lemma DrawnOnto(s: Selection)
    requires IsValid(s)
    ensures exists draws :: InRange(draws) && Drawn(draws) == s
  {
    var draws: seq<nat> := seq(|Categories|, j requires 0 <= j < |Categories| => IndexOf(Ids(Categories[j]), s[Categories[j]]));
    assert InRange(draws);
    var d := Drawn(draws);
    forall c: Category ensures c in d && d[c] == s[c] {
      calc {
        d[c];
        Draw(draws, c);
        Ids(c)[draws[Position(c)]];
        Ids(c)[IndexOf(Ids(c), s[c])];
        s[c];
      }
    }
    SameSelection(d, s);
  }

  /** Here, of at most one: distinct draw vectors give distinct selections. */
  lemma DrawnOneToOne(d1: seq<nat>, d2: seq<nat>)
    requires InRange(d1) && InRange(d2)
    requires Drawn(d1) == Drawn(d2)
    ensures d1 == d2
  {
    forall j | 0 <= j < |Categories| ensures d1[j] == d2[j] {
      var c := Categories[j];
      IdsDistinct(c);
      assert Drawn(d1)[c] == Ids(c)[d1[j]];
      assert Drawn(d2)[c] == Ids(c)[d2[j]];
    }
  }
}

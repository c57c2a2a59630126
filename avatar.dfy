/**
 * The generator component's selection state and the three actions that
 * replace it: picking one option, randomising every category, and resetting.
 */
module Avatar {
  import opened Registry

  class Generator {
    /** The current selection, one option id per category. */
    var state: Selection

    /** The selection has a value for every category. */
    predicate Total()
      reads this
    {
      IsTotal(state)
    }

    /** Every category holds one of its registered ids. */
    predicate Valid()
      reads this
    {
      IsValid(state)
    }

    /** The component starts from the default selection. */
    constructor ()
      ensures state == Default && Valid()
    {
      state := Default;
      DefaultValid();
    }

    /** Sets category `c` to `v` and leaves every other category as it was.
        The result is valid exactly when the other categories were and `v`
        is registered for `c`. */
    method Pick(c: Category, v: string)
      modifies this
      ensures state == old(state)[c := v]
      ensures old(Total()) ==> Total()
      ensures forall d: Category :: d != c ==> (d in state <==> d in old(state)) && (d in state ==> state[d] == old(state)[d])
      ensures old(Valid()) && v in Ids(c) ==> Valid()
      ensures Valid() ==> v in Ids(c)
    {
      state := state[c := v];
    }

    /** An option button of the customise panel: picks the `i`-th option
        offered for `c`, which keeps a valid selection valid. */
    method PickOption(c: Category, i: nat)
      requires i < |Options(c)|
      modifies this
      ensures state == old(state)[c := Options(c)[i].id]
      ensures old(Valid()) ==> Valid()
    {
      assert Options(c)[i].id == Ids(c)[i];
      Pick(c, Options(c)[i].id);
    }

    /** Overwrites every category, in the order of `Categories`, with the
        option its draw indexes: the result is valid and does not depend on
        the state before. */
    method Randomize(draws: seq<nat>)
      requires InRange(draws)
      modifies this
      ensures state == Drawn(draws)
      ensures Valid()
    {
      var r := state;
      for j := 0 to |Categories|
        invariant forall c: Category :: Position(c) < j ==> c in r && r[c] == Draw(draws, c)
      {
        var k := Categories[j];
        CategoriesEnumerate(k, j);
        r := r[k := Ids(k)[draws[j]]];
      }
      var d := Drawn(draws);
      forall c: Category ensures c in r && c in d && r[c] == d[c] {
        assert d[Categories[Position(c)]] == Ids(c)[draws[Position(c)]];
      }
      SameSelection(r, d);
      state := r;
    }

    /** Restores the default selection, whatever the state before. */
    method Reset()
      modifies this
      ensures state == Default && Valid()
    {
      state := Default;
      DefaultValid();
    }
  }

  /** Resetting twice leaves the same state as resetting once. */
  method ResetIsIdempotent(g: Generator)
    modifies g
    ensures g.state == Default
  {
    g.Reset();
    var once := g.state;
    g.Reset();
    assert g.state == once;
  }

  /** Two generators in any states end in the same state when randomised
      with the same draws. */
  method RandomizeForgetsPriorState(g: Generator, h: Generator, draws: seq<nat>)
    requires InRange(draws) && g != h
    modifies g, h
    ensures g.state == h.state && g.Valid()
  {
    g.Randomize(draws);
    h.Randomize(draws);
  }
}

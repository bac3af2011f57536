// The swappable detector and classifier references: a replacement closes the
// component held before installing the new one.
module Components {
  import opened Data

  /** The values present in a sequence of nullable references, in order. */
  function Present<T>(xs: seq<Option<T>>): seq<T>
    decreases |xs|
  {
    if xs == [] then []
    else Present(xs[..|xs| - 1]) + (if xs[|xs| - 1].Some? then [xs[|xs| - 1].value] else [])
  }

  /** The reference held after some replacements, and the components closed along the way. */
  datatype Swap<T> = Swap(held: Option<T>, closed: seq<T>)

  /** setDetector / setClassifier: close the held component if any, then hold the new one. */
  function Replace<T>(held: Option<T>, next: Option<T>): (r: Swap<T>)
    ensures r.held == next
    ensures r.closed == Present([held])
  {
    var closed := if held.Some? then [held.value] else [];
    assert [held][..0] == [];
    Swap(next, closed)
  }

  function ReplaceAll<T>(held: Option<T>, nexts: seq<Option<T>>): Swap<T>
    decreases |nexts|
  {
    if nexts == [] then Swap(held, [])
    else
      var before := ReplaceAll(held, nexts[..|nexts| - 1]);
      var last := Replace(before.held, nexts[|nexts| - 1]);
      Swap(last.held, before.closed + last.closed)
  }

  /** Over any sequence of replacements, every component that was held and then replaced
      is closed exactly once, in the order it was installed, and the last one stays open. */
  lemma {:induction false} ReplaceAllClosesEachOnce<T>(held: Option<T>, nexts: seq<Option<T>>)
    ensures ReplaceAll(held, nexts).held == ([held] + nexts)[|nexts|]
    ensures ReplaceAll(held, nexts).closed == Present(([held] + nexts)[..|nexts|])
    decreases |nexts|
  {
    if nexts != [] {
      var prefix := nexts[..|nexts| - 1];
      ReplaceAllClosesEachOnce(held, prefix);
      var all := [held] + nexts;
      assert all[..|nexts|][..|prefix|] == ([held] + prefix)[..|prefix|];
      assert all[..|nexts|][|prefix|] == ([held] + prefix)[|prefix|];
    }
  }
}

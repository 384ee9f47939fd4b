/**
 * The cuisine checkboxes of the search page: checking appends a cuisine to the
 * selection, unchecking filters it out, reset clears it, and the list shows
 * either every cuisine or only the first seven.
 */
module CuisinesFilter {
  import opened Wrappers

  /** How many cuisines the collapsed list shows. */
  const CollapsedCount: nat := 7

  /** `selectedCuisines.filter(cuisine => cuisine !== clicked)`. */
  function Uncheck(selected: seq<string>, clicked: string): (r: seq<string>)
    ensures |r| <= |selected|
    ensures forall c :: c in r <==> c in selected && c != clicked
  {
    if selected == [] then []
    else (if selected[0] == clicked then [] else [selected[0]]) + Uncheck(selected[1..], clicked)
  }

  /** The new selection after the checkbox of `clicked` changes to `isChecked`. */
  function HandleCuisinesChange(selected: seq<string>, clicked: string, isChecked: bool): (r: seq<string>)
    ensures isChecked ==> |r| == |selected| + 1 && r[..|selected|] == selected && r[|selected|] == clicked
    ensures !isChecked ==> clicked !in r && forall c :: c != clicked ==> (c in r <==> c in selected)
  {
    if isChecked then selected + [clicked] else Uncheck(selected, clicked)
  }

  /** The selection the reset link hands to `onChange`. */
  function HandleCuisinesReset(): (r: seq<string>)
    ensures |r| == 0
  {
    []
  }

  /** `cuisineList.slice(0, isExpanded ? cuisineList.length : 7)`. */
  function VisibleCuisines(cuisineList: seq<string>, isExpanded: bool): (r: seq<string>)
    ensures isExpanded ==> r == cuisineList
    ensures !isExpanded ==> |r| == Min(CollapsedCount, |cuisineList|)
    ensures r == cuisineList[..|r|]
  {
    cuisineList[..if isExpanded then |cuisineList| else Min(CollapsedCount, |cuisineList|)]
  }

  /** A cuisine's checkbox is ticked exactly when it is in the selection. */
  function IsSelected(selected: seq<string>, cuisine: string): (b: bool)
    ensures b <==> exists i :: 0 <= i < |selected| && selected[i] == cuisine
  {
    cuisine in selected
  }

  /** Unchecking keeps the order of the rest: it distributes over concatenation. */
  lemma {:induction false} UncheckDistributes(a: seq<string>, b: seq<string>, clicked: string)
    ensures Uncheck(a + b, clicked) == Uncheck(a, clicked) + Uncheck(b, clicked)
  {
    if a == [] {
      assert a + b == b;
    } else {
      assert (a + b)[0] == a[0];
      assert (a + b)[1..] == a[1..] + b;
      UncheckDistributes(a[1..], b, clicked);
    }
  }

  lemma {:induction false} UncheckAbsent(selected: seq<string>, clicked: string)
    requires clicked !in selected
    ensures Uncheck(selected, clicked) == selected
  {
    if selected != [] {
      UncheckAbsent(selected[1..], clicked);
      assert [selected[0]] + selected[1..] == selected;
    }
  }

  /** Checking a cuisine that was not selected and then unchecking it restores the selection. */
  lemma CheckThenUncheck(selected: seq<string>, clicked: string)
    requires clicked !in selected
    ensures HandleCuisinesChange(HandleCuisinesChange(selected, clicked, true), clicked, false) == selected
  {
    UncheckDistributes(selected, [clicked], clicked);
    UncheckAbsent(selected, clicked);
  }
}

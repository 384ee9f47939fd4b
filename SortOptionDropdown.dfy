/** The sort dropdown of the search page: a fixed option table and the label shown for the current value. */
module SortOptionDropdown {
  import opened Wrappers

  /** An entry of the table; `caption` is the source's `label`, a reserved word in Dafny. */
  datatype SortOption = SortOption(caption: string, value: string)

  const SortOptions: seq<SortOption> := [
    SortOption("Best match", "bestMatch"),
    SortOption("Delivery price", "deliveryPrice"),
    SortOption("Estimated delivery time", "estimatedDeliveryTime")
  ]

  /** Index `k` holds the first option whose value is `value`. */
  predicate FirstMatchAt(options: seq<SortOption>, value: string, k: int)
  {
    0 <= k < |options| && options[k].value == value && forall j :: 0 <= j < k ==> options[j].value != value
  }

  /** `Array.prototype.find`: the first option whose value is `value`. */
  function FindOption(options: seq<SortOption>, value: string): (r: Option<SortOption>)
    ensures r.Some? ==> r.value in options && r.value.value == value
    ensures r.None? <==> forall i :: 0 <= i < |options| ==> options[i].value != value
    ensures options != [] && options[0].value == value ==> r == Some(options[0])
    ensures r.Some? ==> exists k :: FirstMatchAt(options, value, k) && options[k] == r.value
  {
    if options == [] then None
    else if options[0].value == value then Some(options[0])
    else
      var r := FindOption(options[1..], value);
      assert r.Some? ==> exists k :: FirstMatchAt(options, value, k) && options[k] == r.value by {
        if r.Some? {
          var k :| FirstMatchAt(options[1..], value, k) && options[1..][k] == r.value;
          assert options[k + 1] == r.value;
          forall j | 0 <= j < k + 1 ensures options[j].value != value {
            if j > 0 {
              assert options[j] == options[1..][j - 1];
            }
          }
          assert FirstMatchAt(options, value, k + 1);
        }
      }
      assert r.None? ==> forall i :: 0 < i < |options| ==> options[i].value != value by {
        if r.None? {
          forall i | 0 < i < |options| ensures options[i].value != value {
            assert options[i] == options[1..][i - 1];
          }
        }
      }
      r
  }

  /** The label on the dropdown button: the matching option's, or the first option's when none matches or its label is empty. */
  function SelectedSortLabel(sortOption: string): (caption: string)
    ensures forall i :: 0 <= i < |SortOptions| && SortOptions[i].value == sortOption ==> caption == SortOptions[i].caption
    ensures (forall i :: 0 <= i < |SortOptions| ==> SortOptions[i].value != sortOption) ==> caption == "Best match"
  {
    match FindOption(SortOptions, sortOption)
    case Some(option) => if option.caption != "" then option.caption else SortOptions[0].caption
    case None => SortOptions[0].caption
  }

  /** Picking entry `i` of the menu passes that option's value to `onChange`. */
  function OnSelect(i: nat): (value: string)
    requires i < |SortOptions|
    ensures SelectedSortLabel(value) == SortOptions[i].caption
  {
    SortOptions[i].value
  }

  /** The table holds three options, in this order, with pairwise distinct values. */
  lemma SortOptionsTable()
    ensures |SortOptions| == 3
    ensures SortOptions[0].value == "bestMatch" && SortOptions[1].value == "deliveryPrice"
      && SortOptions[2].value == "estimatedDeliveryTime"
    ensures forall i, j :: 0 <= i < j < |SortOptions| ==> SortOptions[i].value != SortOptions[j].value
  {
  }

  lemma SelectedSortLabelExamples()
    ensures SelectedSortLabel("deliveryPrice") == "Delivery price"
    ensures SelectedSortLabel("estimatedDeliveryTime") == "Estimated delivery time"
    ensures SelectedSortLabel("") == "Best match"
  {
  }
}

/**
 * The restaurant form: the validation schema of the form's values, and the
 * submit handler that flattens validated values into the ordered entries of
 * a multipart `FormData` body with indexed keys.
 */
module RestaurantForm {
  import opened Wrappers
  import opened Decimal

  /** A browser `File` chosen in the image field; only its identity matters here. */
  datatype File = File(fileName: string)

  /** One row of the menu section. */
  datatype MenuItem = MenuItem(name: string, price: int)

  /**
   * The raw values held by the form. A required field the user never filled
   * is `None`; `imageUrl` is the URL of an already uploaded image, present
   * when an existing restaurant is being edited.
   */
  datatype RestaurantFormValues = RestaurantFormValues(
    name: Option<string>,
    city: Option<string>,
    country: Option<string>,
    deliveryPrice: Option<int>,
    estimatedDeliveryTime: Option<int>,
    cuisines: seq<string>,
    menuItems: seq<MenuItem>,
    imageUrl: Option<string>,
    imageFile: Option<File>)

  /** The values after validation, as the submit handler receives them. */
  datatype RestaurantFormData = RestaurantFormData(
    name: string,
    city: string,
    country: string,
    deliveryPrice: int,
    estimatedDeliveryTime: int,
    cuisines: seq<string>,
    menuItems: seq<MenuItem>,
    imageUrl: Option<string>,
    imageFile: Option<File>)

  // ---------------------------------------------------------------------------
  // Validation
  // ---------------------------------------------------------------------------

  /** A menu row needs a non-empty name and a price of at least 1. */
  predicate MenuItemValid(m: MenuItem)
  {
    |m.name| >= 1 && m.price >= 1
  }

  /** Every field rule of the object schema except the image fields. */
  predicate FieldsValid(v: RestaurantFormValues)
  {
    && v.name.Some? && v.city.Some? && v.country.Some?
    && v.deliveryPrice.Some? && v.estimatedDeliveryTime.Some?
    && |v.cuisines| >= 1
    && forall i :: 0 <= i < |v.menuItems| ==> MenuItemValid(v.menuItems[i])
  }

  /**
   * The closing refinement: an image URL or an image file. The empty URL is
   * falsy and does not count; a `File` object is always truthy.
   */
  predicate ImageProvided(v: RestaurantFormValues)
  {
    (v.imageUrl.Some? && v.imageUrl.value != "") || v.imageFile.Some?
  }

  /**
   * The schema as written: `imageFile` is declared as a required `File`, so
   * a form without a new file fails whatever its URL.
   */
  predicate SchemaAsWritten(v: RestaurantFormValues)
  {
    FieldsValid(v) && v.imageFile.Some? && ImageProvided(v)
  }

  /** The schema as its refinement intends it: `imageFile` optional, one of the two images required. */
  predicate Schema(v: RestaurantFormValues)
  {
    FieldsValid(v) && ImageProvided(v)
  }

  /**
   * Validation with the corrected schema `Schema`, not `SchemaAsWritten`: the
   * validated data, or nothing. The resolver as written also rejects every
   * form without a new file (see `AsWrittenRejectsExistingImage`).
   */
  function Resolve(v: RestaurantFormValues): (r: Option<RestaurantFormData>)
    ensures r.Some? <==> Schema(v)
    ensures r.Some? ==>
      && r.value.name == v.name.value && r.value.city == v.city.value && r.value.country == v.country.value
      && r.value.deliveryPrice == v.deliveryPrice.value
      && r.value.estimatedDeliveryTime == v.estimatedDeliveryTime.value
      && r.value.cuisines == v.cuisines && r.value.menuItems == v.menuItems
      && r.value.imageUrl == v.imageUrl && r.value.imageFile == v.imageFile
  {
    if Schema(v) then
      Some(RestaurantFormData(v.name.value, v.city.value, v.country.value,
                              v.deliveryPrice.value, v.estimatedDeliveryTime.value,
                              v.cuisines, v.menuItems, v.imageUrl, v.imageFile))
    else None
  }

  /** Validated data always has a cuisine, valid menu rows and an image. */
  predicate ValidData(d: RestaurantFormData)
  {
    && |d.cuisines| >= 1
    && (forall i :: 0 <= i < |d.menuItems| ==> MenuItemValid(d.menuItems[i]))
    && ((d.imageUrl.Some? && d.imageUrl.value != "") || d.imageFile.Some?)
  }

  lemma ResolvedDataValid(v: RestaurantFormValues)
    requires Resolve(v).Some?
    ensures ValidData(Resolve(v).value)
  {
  }

  /** An empty cuisine list is rejected, by both schemas. */
  lemma RejectsEmptyCuisines(v: RestaurantFormValues)
    requires v.cuisines == []
    ensures !Schema(v) && !SchemaAsWritten(v) && Resolve(v).None?
  {
  }

  /** A menu row with an empty name or a price below 1 is rejected, by both schemas. */
  lemma RejectsInvalidMenuItem(v: RestaurantFormValues, i: nat)
    requires i < |v.menuItems|
    requires v.menuItems[i].name == "" || v.menuItems[i].price < 1
    ensures !Schema(v) && !SchemaAsWritten(v) && Resolve(v).None?
  {
    assert !MenuItemValid(v.menuItems[i]);
  }

  /** Without an image URL and without an image file the form is rejected, by both schemas. */
  lemma RejectsMissingImage(v: RestaurantFormValues)
    requires v.imageUrl.None? || v.imageUrl == Some("")
    requires v.imageFile.None?
    ensures !Schema(v) && !SchemaAsWritten(v) && Resolve(v).None?
  {
  }

  /** As written, the refinement adds nothing: validity is the field rules plus a new file. */
  lemma AsWrittenRequiresFile(v: RestaurantFormValues)
    ensures SchemaAsWritten(v) <==> FieldsValid(v) && v.imageFile.Some?
  {
  }

  /** Editing a restaurant that already has an image, without choosing a new file. */
  function ExistingImageEdit(): (v: RestaurantFormValues)
    ensures v.imageFile.None? && v.imageUrl.Some? && v.imageUrl.value != ""
  {
    RestaurantFormValues(Some("Pasta Place"), Some("London"), Some("United Kingdom"), Some(150), Some(30),
                         ["Italian"], [MenuItem("Lasagne", 1200)], Some("https://img.example/pasta.png"), None)
  }

  /** The schema as written rejects that edit, although the refinement accepts it. */
  lemma AsWrittenRejectsExistingImage()
    ensures FieldsValid(ExistingImageEdit()) && ImageProvided(ExistingImageEdit())
    ensures !SchemaAsWritten(ExistingImageEdit())
    ensures Schema(ExistingImageEdit())
  {
    var v := ExistingImageEdit();
    assert MenuItemValid(v.menuItems[0]);
  }

  /** The corrected schema accepts everything the written one does, and a URL in place of a file. */
  lemma SchemaExtendsAsWritten(v: RestaurantFormValues)
    ensures SchemaAsWritten(v) ==> Schema(v)
    ensures Schema(v) <==> SchemaAsWritten(v) || (FieldsValid(v) && v.imageUrl.Some? && v.imageUrl.value != "")
  {
  }

  // ---------------------------------------------------------------------------
  // Serialisation
  // ---------------------------------------------------------------------------

  /** A `FormData` value: a text field or a file. */
  datatype FormValue = Text(text: string) | Blob(file: File)

  type FormEntry = (string, FormValue)

  /** The entries a multipart body carries, in `append` order. */
  class FormData {
    var entries: seq<FormEntry>

    constructor ()
      ensures entries == []
    {
      entries := [];
    }

    method Append(key: string, value: FormValue)
      modifies this
      ensures entries == old(entries) + [(key, value)]
    {
      entries := entries + [(key, value)];
    }
  }

  function CuisineKey(i: nat): string
  {
    "cuisines[" + NatToString(i) + "]"
  }

  function MenuNameKey(i: nat): string
  {
    "menuItems[" + NatToString(i) + "][name]"
  }

  function MenuPriceKey(i: nat): string
  {
    "menuItems[" + NatToString(i) + "][price]"
  }

  /** The five scalar fields, numbers rendered as decimal text. */
  function HeaderEntries(d: RestaurantFormData): seq<FormEntry>
  {
    [ ("name", Text(d.name)),
      ("city", Text(d.city)),
      ("country", Text(d.country)),
      ("deliveryPrice", Text(IntToString(d.deliveryPrice))),
      ("estimatedDeliveryTime", Text(IntToString(d.estimatedDeliveryTime))) ]
  }

  /** One `cuisines[i]` entry per cuisine, in list order. */
  function CuisineEntries(cuisines: seq<string>): (r: seq<FormEntry>)
    ensures |r| == |cuisines|
  {
    if cuisines == [] then []
    else
      var n := |cuisines| - 1;
      CuisineEntries(cuisines[..n]) + [(CuisineKey(n), Text(cuisines[n]))]
  }

  /** Entry `i` of the cuisine part is `cuisines[i]` under the key `cuisines[i]`. */
  lemma {:induction false} CuisineEntryKey(cuisines: seq<string>, i: nat)
    requires i < |cuisines|
    ensures CuisineEntries(cuisines)[i] == (CuisineKey(i), Text(cuisines[i]))
  {
    var n := |cuisines| - 1;
    if i < n {
      assert cuisines[..n][i] == cuisines[i];
      CuisineEntryKey(cuisines[..n], i);
    }
  }

  /** The two entries of one menu row: its name, then its price. */
  function MenuEntryPair(i: nat, m: MenuItem): seq<FormEntry>
  {
    [(MenuNameKey(i), Text(m.name)), (MenuPriceKey(i), Text(IntToString(m.price)))]
  }

  /** `menuItems[i][name]` immediately followed by `menuItems[i][price]`, row by row. */
  function MenuEntries(items: seq<MenuItem>): (r: seq<FormEntry>)
    ensures |r| == 2 * |items|
  {
    if items == [] then []
    else
      var n := |items| - 1;
      MenuEntries(items[..n]) + MenuEntryPair(n, items[n])
  }

  /** Row `i` of the menu part is its name entry at `2 * i` and its price entry at `2 * i + 1`. */
  lemma {:induction false} MenuEntryKeys(items: seq<MenuItem>, i: nat)
    requires i < |items|
    ensures MenuEntries(items)[2 * i] == (MenuNameKey(i), Text(items[i].name))
    ensures MenuEntries(items)[2 * i + 1] == (MenuPriceKey(i), Text(IntToString(items[i].price)))
  {
    var n := |items| - 1;
    var front := MenuEntries(items[..n]);
    assert |front| == 2 * n;
    if i < n {
      assert items[..n][i] == items[i];
      MenuEntryKeys(items[..n], i);
      assert MenuEntries(items)[2 * i] == front[2 * i];
      assert MenuEntries(items)[2 * i + 1] == front[2 * i + 1];
    }
  }

  /** Appending cuisine `i` to the entries of the first `i` cuisines. */
  lemma CuisineEntriesSnoc(cuisines: seq<string>, i: nat)
    requires i < |cuisines|
    ensures CuisineEntries(cuisines[..i + 1]) == CuisineEntries(cuisines[..i]) + [(CuisineKey(i), Text(cuisines[i]))]
  {
    assert cuisines[..i + 1][..i] == cuisines[..i];
  }

  /** Appending menu row `i` to the entries of the first `i` rows. */
  lemma MenuEntriesSnoc(items: seq<MenuItem>, i: nat)
    requires i < |items|
    ensures MenuEntries(items[..i + 1]) == MenuEntries(items[..i]) + MenuEntryPair(i, items[i])
  {
    assert items[..i + 1][..i] == items[..i];
  }

  /** The file entry, present only when a file was chosen. */
  function ImageEntries(file: Option<File>): seq<FormEntry>
  {
    if file.Some? then [("imageFile", Blob(file.value))] else []
  }

  /** The whole body built by the submit handler. */
  function FormEntries(d: RestaurantFormData): seq<FormEntry>
  {
    HeaderEntries(d) + CuisineEntries(d.cuisines) + MenuEntries(d.menuItems) + ImageEntries(d.imageFile)
  }

  /** The five `append` calls of the scalar fields. */
  method AppendHeader(data: FormData, d: RestaurantFormData)
    modifies data
    ensures data.entries == old(data.entries) + HeaderEntries(d)
  {
    data.Append("name", Text(d.name));
    data.Append("city", Text(d.city));
    data.Append("country", Text(d.country));
    data.Append("deliveryPrice", Text(IntToString(d.deliveryPrice)));
    data.Append("estimatedDeliveryTime", Text(IntToString(d.estimatedDeliveryTime)));
  }

  /** The `forEach` over the cuisines. */
  method AppendCuisines(data: FormData, cuisines: seq<string>)
    modifies data
    ensures data.entries == old(data.entries) + CuisineEntries(cuisines)
  {
    ghost var before := data.entries;
    var i := 0;
    while i < |cuisines|
      invariant 0 <= i <= |cuisines|
      invariant data.entries == before + CuisineEntries(cuisines[..i])
    {
      CuisineEntriesSnoc(cuisines, i);
      data.Append(CuisineKey(i), Text(cuisines[i]));
      i := i + 1;
    }
    assert cuisines[..i] == cuisines;
  }

  /** The `forEach` over the menu rows, two entries per row. */
  method AppendMenuItems(data: FormData, items: seq<MenuItem>)
    modifies data
    ensures data.entries == old(data.entries) + MenuEntries(items)
  {
    ghost var before := data.entries;
    var j := 0;
    while j < |items|
      invariant 0 <= j <= |items|
      invariant data.entries == before + MenuEntries(items[..j])
    {
      MenuEntriesSnoc(items, j);
      data.Append(MenuNameKey(j), Text(items[j].name));
      data.Append(MenuPriceKey(j), Text(IntToString(items[j].price)));
      j := j + 1;
    }
    assert items[..j] == items;
  }

  /** The submit handler: appends the fields one by one to a fresh `FormData`. */
  method OnSubmit(d: RestaurantFormData) returns (entries: seq<FormEntry>)
    ensures entries == FormEntries(d)
  {
    var data := new FormData();
    AppendHeader(data, d);
    assert data.entries == HeaderEntries(d);
    AppendCuisines(data, d.cuisines);
    ghost var text := HeaderEntries(d) + CuisineEntries(d.cuisines);
    assert data.entries == text;
    AppendMenuItems(data, d.menuItems);
    text := text + MenuEntries(d.menuItems);
    assert data.entries == text;
    if d.imageFile.Some? {
      data.Append("imageFile", Blob(d.imageFile.value));
    }
    assert data.entries == text + ImageEntries(d.imageFile);
    entries := data.entries;
  }

  // ---------------------------------------------------------------------------
  // Properties of the body
  // ---------------------------------------------------------------------------

  /** The body starts with the five scalar fields in their fixed order. */
  lemma HeaderComesFirst(d: RestaurantFormData)
    ensures |FormEntries(d)| >= 5
    ensures FormEntries(d)[..5] == HeaderEntries(d)
    ensures FormEntries(d)[0].0 == "name" && FormEntries(d)[1].0 == "city" && FormEntries(d)[2].0 == "country"
    ensures FormEntries(d)[3] == ("deliveryPrice", Text(IntToString(d.deliveryPrice)))
    ensures FormEntries(d)[4] == ("estimatedDeliveryTime", Text(IntToString(d.estimatedDeliveryTime)))
  {
    assert FormEntries(d) == HeaderEntries(d) + (CuisineEntries(d.cuisines) + MenuEntries(d.menuItems) + ImageEntries(d.imageFile));
  }

  /** Cuisine `i` sits right after the header, at position `5 + i`. */
  lemma CuisineEntryAt(d: RestaurantFormData, i: nat)
    requires i < |d.cuisines|
    ensures 5 + i < |FormEntries(d)|
    ensures FormEntries(d)[5 + i] == (CuisineKey(i), Text(d.cuisines[i]))
  {
    var c := CuisineEntries(d.cuisines);
    assert FormEntries(d) == (HeaderEntries(d) + c) + (MenuEntries(d.menuItems) + ImageEntries(d.imageFile));
    assert (HeaderEntries(d) + c)[5 + i] == c[i];
    CuisineEntryKey(d.cuisines, i);
  }

  /** Menu row `i` gives its name entry and, immediately after, its price entry. */
  lemma MenuEntriesAt(d: RestaurantFormData, i: nat)
    requires i < |d.menuItems|
    ensures var k := 5 + |d.cuisines| + 2 * i;
      k + 1 < |FormEntries(d)|
      && FormEntries(d)[k] == (MenuNameKey(i), Text(d.menuItems[i].name))
      && FormEntries(d)[k + 1] == (MenuPriceKey(i), Text(IntToString(d.menuItems[i].price)))
  {
    var prefix := HeaderEntries(d) + CuisineEntries(d.cuisines);
    var m := MenuEntries(d.menuItems);
    assert |prefix| == 5 + |d.cuisines|;
    assert FormEntries(d) == (prefix + m) + ImageEntries(d.imageFile);
    assert (prefix + m)[|prefix| + 2 * i] == m[2 * i];
    assert (prefix + m)[|prefix| + 2 * i + 1] == m[2 * i + 1];
    MenuEntryKeys(d.menuItems, i);
  }

  /** The number of entries: five, one per cuisine, two per menu row, one for a file. */
  lemma EntryCount(d: RestaurantFormData)
    ensures |FormEntries(d)| == 5 + |d.cuisines| + 2 * |d.menuItems| + (if d.imageFile.Some? then 1 else 0)
  {
  }

  /** The image entry is appended, last, exactly when a file was chosen. */
  lemma ImageEntryLastIffFile(d: RestaurantFormData)
    ensures var r := FormEntries(d);
      (r[|r| - 1].1.Blob? <==> d.imageFile.Some?)
      && (d.imageFile.Some? ==> r[|r| - 1] == ("imageFile", Blob(d.imageFile.value)))
      && (forall k :: 0 <= k < |r| - 1 ==> r[k].1.Text?)
  {
    var h, c, m := HeaderEntries(d), CuisineEntries(d.cuisines), MenuEntries(d.menuItems);
    var text := h + c + m;
    forall k | 0 <= k < |text|
      ensures text[k].1.Text?
    {
      if k < |h| {
        assert text[k] == h[k];
      } else if k < |h| + |c| {
        assert text[k] == c[k - |h|];
        CuisineEntryKey(d.cuisines, k - |h|);
      } else {
        var i := (k - |h| - |c|) / 2;
        assert text[k] == m[k - |h| - |c|];
        assert k - |h| - |c| == 2 * i || k - |h| - |c| == 2 * i + 1;
        assert 0 <= i < |d.menuItems|;
        MenuEntryKeys(d.menuItems, i);
      }
    }
    assert FormEntries(d) == text + ImageEntries(d.imageFile);
  }

  // ---------------------------------------------------------------------------
  // Distinct keys
  // ---------------------------------------------------------------------------

  /** Cuisine keys name their index: equal keys have equal indexes. */
  lemma CuisineKeyInjective(i: nat, j: nat)
    ensures CuisineKey(i) == CuisineKey(j) <==> i == j
  {
    if CuisineKey(i) == CuisineKey(j) {
      var a, b := CuisineKey(i), CuisineKey(j);
      assert a[9..|a| - 1] == NatToString(i);
      assert b[9..|b| - 1] == NatToString(j);
      NatToStringInjective(i, j);
    }
  }

  /** Menu keys name their row and their field: equal keys have equal rows and fields. */
  lemma MenuKeyInjective(i: nat, j: nat)
    ensures MenuNameKey(i) == MenuNameKey(j) <==> i == j
    ensures MenuPriceKey(i) == MenuPriceKey(j) <==> i == j
    ensures MenuNameKey(i) != MenuPriceKey(j)
  {
    var n, m := MenuNameKey(i), MenuNameKey(j);
    var p, q := MenuPriceKey(i), MenuPriceKey(j);
    if n == m {
      assert n[10..|n| - 7] == NatToString(i);
      assert m[10..|m| - 7] == NatToString(j);
      NatToStringInjective(i, j);
    }
    if p == q {
      assert p[10..|p| - 8] == NatToString(i);
      assert q[10..|q| - 8] == NatToString(j);
      NatToStringInjective(i, j);
    }
    assert n[|n| - 3] == 'm';
    assert q[|q| - 3] == 'c';
  }

  /** The key the body carries at position `k`, read off the layout proved above. */
  function KeyAt(d: RestaurantFormData, k: nat): string
  {
    var c, m := |d.cuisines|, 2 * |d.menuItems|;
    if k < 5 then HeaderEntries(d)[k].0
    else if k < 5 + c then CuisineKey(k - 5)
    else if k < 5 + c + m then
      if (k - 5 - c) % 2 == 0 then MenuNameKey((k - 5 - c) / 2) else MenuPriceKey((k - 5 - c) / 2)
    else "imageFile"
  }

  lemma EntryKey(d: RestaurantFormData, k: nat)
    requires k < |FormEntries(d)|
    ensures FormEntries(d)[k].0 == KeyAt(d, k)
  {
    EntryCount(d);
    var c, m := |d.cuisines|, 2 * |d.menuItems|;
    if k < 5 {
      HeaderComesFirst(d);
      assert FormEntries(d)[k] == FormEntries(d)[..5][k];
    } else if k < 5 + c {
      CuisineEntryAt(d, k - 5);
    } else if k < 5 + c + m {
      MenuKeyAt(d, k);
    } else {
      ImageEntryLastIffFile(d);
    }
  }

  lemma MenuKeyAt(d: RestaurantFormData, k: nat)
    requires 5 + |d.cuisines| <= k < 5 + |d.cuisines| + 2 * |d.menuItems|
    ensures k < |FormEntries(d)|
    ensures FormEntries(d)[k].0 ==
      if (k - 5 - |d.cuisines|) % 2 == 0 then MenuNameKey((k - 5 - |d.cuisines|) / 2)
      else MenuPriceKey((k - 5 - |d.cuisines|) / 2)
  {
    var off := k - 5 - |d.cuisines|;
    var i := off / 2;
    assert off == 2 * i + off % 2;
    MenuEntriesAt(d, i);
  }

  /** The first two letters of a key tell which part of the body it belongs to. */
  lemma KeyTags(i: nat)
    ensures CuisineKey(i)[0] == 'c' && CuisineKey(i)[1] == 'u'
    ensures MenuNameKey(i)[0] == 'm' && MenuPriceKey(i)[0] == 'm'
  {
  }

  /** Positions of the body hold distinct keys. */
  lemma KeyAtDistinct(d: RestaurantFormData, a: nat, b: nat)
    requires a < b < 5 + |d.cuisines| + 2 * |d.menuItems| + (if d.imageFile.Some? then 1 else 0)
    ensures KeyAt(d, a) != KeyAt(d, b)
  {
    var c, m := |d.cuisines|, 2 * |d.menuItems|;
    if b < 5 {
    } else if b < 5 + c {
      KeyTags(b - 5);
      if a >= 5 {
        CuisineKeyInjective(a - 5, b - 5);
      }
    } else if b < 5 + c + m {
      var j := (b - 5 - c) / 2;
      KeyTags(j);
      if a >= 5 + c {
        var i := (a - 5 - c) / 2;
        assert i < j || (i == j && (a - 5 - c) % 2 == 0 && (b - 5 - c) % 2 == 1);
        MenuKeyInjective(i, j);
        MenuKeyInjective(j, i);
      } else if a >= 5 {
        KeyTags(a - 5);
      }
    } else {
      if 5 + c <= a {
        KeyTags((a - 5 - c) / 2);
      } else if 5 <= a {
        KeyTags(a - 5);
      }
    }
  }

  /** The body never carries the same key twice, so no field overwrites another on the server. */
  lemma KeysDistinct(d: RestaurantFormData, a: nat, b: nat)
    requires a < b < |FormEntries(d)|
    ensures FormEntries(d)[a].0 != FormEntries(d)[b].0
  {
    EntryCount(d);
    EntryKey(d, a);
    EntryKey(d, b);
    KeyAtDistinct(d, a, b);
  }
}

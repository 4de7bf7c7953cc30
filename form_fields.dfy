/**
 * The parsed form fields and the three ways the handler reads them:
 * `(fields.x || '').toString()` for name and email, `get(k)` for the
 * single-valued fields and `csv(v)` for the repeatable ones.
 */
module FormFields {
  import opened Wrappers
  import opened JsStrings

  /** A field value as the multipart parser hands it over: one string, or an array of them. */
  datatype FormValue = Scalar(s: string) | Multi(items: seq<string>)

  /** The `fields` object: field name to value; a name not in the map is absent. */
  type Fields = map<string, FormValue>

  /** `fields[k]`. */
  function Lookup(fields: Fields, k: string): Option<FormValue>
  {
    if k in fields then Some(fields[k]) else None
  }

  /**
   * `(v || '').toString()`: absent gives "", a string is itself, and an
   * array (truthy even when empty) prints its items joined by ",".
   */
  function ToText(v: Option<FormValue>): (text: string)
    ensures v.Some? && v.value.Multi? && |v.value.items| == 1 ==> text == v.value.items[0]
    ensures v.Some? && v.value.Multi? && v.value.items == [] ==> text == ""
  {
    match v
    case None => ""
    case Some(Scalar(s)) => s
    case Some(Multi(items)) => Join(items, ",")
  }

  /**
   * `get(k)`: the first item of an array (or "" for an empty one), a string
   * as it is, "" when absent. Nothing is trimmed.
   */
  function Get(fields: Fields, k: string): string
  {
    match Lookup(fields, k)
    case None => ""
    case Some(Scalar(s)) => s
    case Some(Multi(items)) => if items == [] then "" else items[0]
  }

  /** `csv(v)`: the non-empty items of an array joined by ", ", a string as it is, "" when absent. */
  function Csv(v: Option<FormValue>): string
  {
    match v
    case None => ""
    case Some(Scalar(s)) => s
    case Some(Multi(items)) => Join(NonEmpty(items), ", ")
  }

  /** What `get` returns, case by case: it never trims and never looks past item 0. */
  lemma GetCases(fields: Fields, k: string)
    ensures k !in fields ==> Get(fields, k) == ""
    ensures k in fields && fields[k].Scalar? ==> Get(fields, k) == fields[k].s
    ensures k in fields && fields[k].Multi? && fields[k].items == [] ==> Get(fields, k) == ""
    ensures k in fields && fields[k].Multi? && fields[k].items != [] ==> Get(fields, k) == fields[k].items[0]
  {
  }

  /**
   * `get(k)` is always a prefix of `fields[k].toString()`, and the two agree
   * unless the value is an array of two or more items.
   */
  lemma GetPrefixOfToText(fields: Fields, k: string)
    ensures Get(fields, k) <= ToText(Lookup(fields, k))
    ensures (k !in fields || fields[k].Scalar? || |fields[k].items| <= 1) ==>
              Get(fields, k) == ToText(Lookup(fields, k))
  {
    if k in fields && fields[k].Multi? && |fields[k].items| > 1 {
      var items := fields[k].items;
      assert Join(items, ",") == items[0] + "," + Join(items[1..], ",");
    }
  }

  /** `csv` returns a string as it is and "" for an absent value; on an array it joins the kept items. */
  lemma CsvCases(v: Option<FormValue>)
    ensures v.None? ==> Csv(v) == ""
    ensures v.Some? && v.value.Scalar? ==> Csv(v) == v.value.s
    ensures v.Some? && v.value.Multi? && "" !in v.value.items ==> Csv(v) == Join(v.value.items, ", ")
  {
    if v.Some? && v.value.Multi? && "" !in v.value.items {
      NonEmptyFixed(v.value.items);
    }
  }

  /** `csv` on an array is empty exactly when every item is. */
  lemma CsvEmptyIff(items: seq<string>)
    ensures Csv(Some(Multi(items))) == "" <==> forall i :: 0 <= i < |items| ==> items[i] == ""
  {
    var kept := NonEmpty(items);
    NonEmptyNilIff(items);
    if kept != [] {
      JoinNonEmpty(kept, ", ", 0);
    }
  }

  /**
   * `csv` on an array keeps the non-empty items in their order: splitting the
   * result on ", " gives them back, and no segment is empty, provided no item
   * holds a ',' and at least one item is non-empty.
   */
  lemma CsvSegments(items: seq<string>)
    requires forall i :: 0 <= i < |items| ==> ',' !in items[i]
    requires exists i :: 0 <= i < |items| && items[i] != ""
    ensures SplitOn(Csv(Some(Multi(items))), ", ") == NonEmpty(items)
    ensures "" !in SplitOn(Csv(Some(Multi(items))), ", ")
  {
    var kept := NonEmpty(items);
    NonEmptyNilIff(items);
    forall j | 0 <= j < |kept| ensures ',' !in kept[j] {
      assert kept[j] in kept;
    }
    SplitJoin(kept, ", ");
  }
}

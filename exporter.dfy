/**
 * `generate_csv` of utils.py: the header and the data rows written for the
 * most recent stored classification. The file, its timestamped name and the
 * CSV encoding are not modelled; the output is the header and the sequence
 * of rows handed to the writer.
 */
module Exporter {
  import opened Wrappers
  import opened PyJson
  import Classifier

  /** The five column names, written first on every call. */
  const Header: seq<string> :=
    ["product_name", "component_name", "material", "disposal_category", "classification_explanation"]

  /** One data row, a value per column of Header. */
  datatype Row = Row(
    productName: string,
    componentName: Json,
    material: Json,
    disposalCategory: Json,
    classificationExplanation: Json)

  /** What `json.loads` makes of the stored `classification_result` text. */
  datatype Decoded = Undecodable(message: string) | DecodedValue(value: Json)

  /** The newest stored document as `generate_csv` reads it. */
  datatype StoredRecord = StoredRecord(productDescription: string, classificationResult: Decoded)

  /** The row for one stored component dict; a missing key gives the empty string. */
  function RowOf(productName: string, fields: map<string, Json>): (row: Row)
    ensures row.productName == productName
    ensures "component_name" in fields ==> row.componentName == fields["component_name"]
    ensures "component_name" !in fields ==> row.componentName == JStr("")
    ensures "material" in fields ==> row.material == fields["material"]
    ensures "material" !in fields ==> row.material == JStr("")
    ensures "disposal_category" in fields ==> row.disposalCategory == fields["disposal_category"]
    ensures "disposal_category" !in fields ==> row.disposalCategory == JStr("")
    ensures "classification_explanation" in fields ==> row.classificationExplanation == fields["classification_explanation"]
    ensures "classification_explanation" !in fields ==> row.classificationExplanation == JStr("")
  {
    Row(
      productName,
      Get(fields, "component_name", JStr("")),
      Get(fields, "material", JStr("")),
      Get(fields, "disposal_category", JStr("")),
      Get(fields, "classification_explanation", JStr("")))
  }

  /** The rows of utils.py:164-172: one per dict, until the first element that
      is not a dict raises AttributeError, which utils.py:173 swallows, leaving
      the rows already written. */
  function RowsUntilNonObject(productName: string, items: seq<Json>): seq<Row>
  {
    if items == [] || !items[0].JObject? then []
    else [RowOf(productName, items[0].fields)] + RowsUntilNonObject(productName, items[1..])
  }

  /** The data rows written for the result of `get_latest`: none when there is
      no record, when the stored text does not decode, or when it decodes to
      something other than a list. */
  function ExportedRows(latest: Option<StoredRecord>): seq<Row>
  {
    match latest
    case None => []
    case Some(rec) =>
      match rec.classificationResult
      case Undecodable(_) => []
      case DecodedValue(v) => if v.JArray? then RowsUntilNonObject(rec.productDescription, v.items) else []
  }

  /** The rows are those of the longest prefix of dicts, in order, each with
      the record's description as product name; the element after them, if
      any, is the first one that is not a dict. */
  lemma {:induction false} RowsArePrefixOfObjects(productName: string, items: seq<Json>)
    ensures |RowsUntilNonObject(productName, items)| <= |items|
    ensures forall k :: 0 <= k < |RowsUntilNonObject(productName, items)| ==>
      items[k].JObject? && RowsUntilNonObject(productName, items)[k] == RowOf(productName, items[k].fields)
    ensures |RowsUntilNonObject(productName, items)| < |items| ==>
      !items[|RowsUntilNonObject(productName, items)|].JObject?
  {
    if items != [] && items[0].JObject? {
      RowsArePrefixOfObjects(productName, items[1..]);
      var rest := RowsUntilNonObject(productName, items[1..]);
      assert RowsUntilNonObject(productName, items) == [RowOf(productName, items[0].fields)] + rest;
      assert forall k :: 1 <= k < |items| ==> items[k] == items[1..][k - 1];
    }
  }

  /** A list of N dicts gives exactly N rows, in order. */
  lemma {:induction false} AllObjectsGiveAllRows(productName: string, items: seq<Json>)
    requires forall k :: 0 <= k < |items| ==> items[k].JObject?
    ensures |RowsUntilNonObject(productName, items)| == |items|
  {
    RowsArePrefixOfObjects(productName, items);
  }

  /** The dict `json.dumps` stores for a component (models.py:89), as `json.loads` reads it back. */
  function ComponentJson(c: Classifier.Component): Json
  {
    JObject(map[
      "component_name" := c.componentName,
      "material" := c.material,
      "disposal_category" := c.disposalCategory,
      "classification_explanation" := c.classificationExplanation])
  }

  /** Exporting a stored classification reproduces every component of it, in
      order, field for field, each row named after the stored description. */
  lemma {:induction false} ExportOfStoredClassification(description: string, cs: seq<Classifier.Component>)
    ensures var rows := ExportedRows(Some(StoredRecord(description,
              DecodedValue(JArray(seq(|cs|, k requires 0 <= k < |cs| => ComponentJson(cs[k])))))));
      && |rows| == |cs|
      && forall k :: 0 <= k < |cs| ==>
           rows[k] == Row(description, cs[k].componentName, cs[k].material,
                          cs[k].disposalCategory, cs[k].classificationExplanation)
  {
    var items := seq(|cs|, k requires 0 <= k < |cs| => ComponentJson(cs[k]));
    assert forall k :: 0 <= k < |items| ==> items[k].JObject?;
    RowsArePrefixOfObjects(description, items);
  }

  /** `generate_csv()` given the result of `get_latest()`: the header, then the
      rows written in order by the loop of utils.py:164-172. */
  method GenerateCsv(latest: Option<StoredRecord>) returns (header: seq<string>, rows: seq<Row>)
    ensures header == Header
    ensures rows == ExportedRows(latest)
    // header only: no record, stored text that does not decode, or not a list
    ensures (|| latest.None?
             || latest.value.classificationResult.Undecodable?
             || !latest.value.classificationResult.value.JArray?) ==> rows == []
  {
    header := Header;
    rows := [];
    if latest.None? || latest.value.classificationResult.Undecodable? {
      return;
    }
    var name := latest.value.productDescription;
    var components := latest.value.classificationResult.value;
    if !components.JArray? {
      return;
    }
    var items := components.items;
    var i := 0;
    assert items[0..] == items;
    while i < |items|
      invariant 0 <= i <= |items|
      invariant RowsUntilNonObject(name, items) == rows + RowsUntilNonObject(name, items[i..])
    {
      var component := items[i];
      assert items[i..][0] == component && items[i..][1..] == items[i + 1..];
      if !component.JObject? {
        break;
      }
      rows := rows + [RowOf(name, component.fields)];
      i := i + 1;
    }
    assert i == |items| ==> items[i..] == [];
  }
}

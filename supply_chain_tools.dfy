/**
 * The deterministic tools of the tool service: customs documents, compliance
 * status, route optimisation and tracking. Each takes the parameters exactly
 * as the task carried them, so a non-dict raises on the first `.get`.
 * The wall-clock timestamps and random ids the tools add are not modelled.
 */
module SupplyChainTools {
  import opened Wrappers
  import opened Json
  import opened Seqs

  const RequiredDocuments: seq<string> := ["commercial_invoice", "packing_list", "certificate_of_origin"]

  /** `doc in provided` for a container `in` accepts. */
  predicate Present(provided: Value, doc: string)
    requires Contains(provided, doc).Ok?
  {
    Contains(provided, doc).value
  }

  /** True when `in` works on `provided` (a list, a dict or a string). */
  predicate Searchable(provided: Value) {
    provided.Arr? || provided.Obj? || provided.Str?
  }

  /**
   * `[doc for doc in required if doc not in provided]`: the required documents
   * absent from `provided`, in their order. Searching a value `in` does not
   * accept raises, unless there is nothing to search for.
   */
  function Missing(required: seq<string>, provided: Value): (r: Result<seq<string>, PyError>)
    ensures r.Err? <==> required != [] && !Searchable(provided)
    ensures r.Err? ==> r.error == NotIterable(provided)
    ensures r.Ok? ==> IsSubseq(r.value, required)
    ensures r.Ok? ==> forall i :: 0 <= i < |r.value| ==> r.value[i] in required && !Present(provided, r.value[i])
    ensures r.Ok? ==> forall d :: d in required && !Present(provided, d) ==> d in r.value
    decreases |required|
  {
    if required == [] then Ok([])
    else
      var present :- Contains(provided, required[0]);
      var rest := Missing(required[1..], provided);
      if rest.Err? then rest
      else if present then
        SubseqDropFirst(required);
        SubseqTrans(rest.value, required[1..], required);
        Ok(rest.value)
      else
        SubseqConsBoth(required[0], rest.value, required[1..]);
        assert required == [required[0]] + required[1..];
        Ok([required[0]] + rest.value)
  }

  /**
   * `validate_customs_documentation`: valid exactly when none of the three
   * required documents is missing from `documents` (default `[]`).
   */
  function ValidateCustomsDocumentation(params: Value): (r: Result<Object, PyError>)
    ensures !params.Obj? ==> r == Err(NoAttribute(params, "get"))
    ensures params.Obj? ==>
      var provided := GetOr(params.fields, "documents", Arr([]));
      && (r.Ok? <==> Searchable(provided))
      && (r.Err? ==> r.error == NotIterable(provided))
      && (r.Ok? ==>
        var missing := Missing(RequiredDocuments, provided).value;
        && r.value.Keys == {"valid", "missing_documents", "provided_documents", "message"}
        && r.value["valid"] == Bool(missing == [])
        && r.value["missing_documents"] == Strings(missing)
        && r.value["provided_documents"] == provided
        && r.value["message"] == Str(if missing == [] then "All required documents present"
                                     else "Missing: " + Join(", ", missing)))
  {
    var provided :- Get(params, "documents", Arr([]));
    var missing :- Missing(RequiredDocuments, provided);
    var isValid := missing == [];
    Ok(map[
      "valid" := Bool(isValid),
      "missing_documents" := Strings(missing),
      "provided_documents" := provided,
      "message" := Str(if isValid then "All required documents present" else "Missing: " + Join(", ", missing))])
  }

  /** Documents are valid exactly when each required one is in the given list. */
  lemma DocumentsValidIff(docs: seq<Value>)
    ensures
      var r := ValidateCustomsDocumentation(Obj(map["documents" := Arr(docs)]));
      r.Ok? && (r.value["valid"] == Bool(true) <==> forall d :: d in RequiredDocuments ==> Str(d) in docs)
  {
    var m := Missing(RequiredDocuments, Arr(docs)).value;
    if m != [] {
      assert m[0] in RequiredDocuments by { SubseqMembers(m, RequiredDocuments, 0); }
    }
  }

  lemma SubseqMembers<T>(a: seq<T>, b: seq<T>, i: nat)
    requires IsSubseq(a, b) && i < |a|
    ensures a[i] in b
  {
  }

  /** With no documents all three are missing, in the fixed order. */
  lemma NoDocumentsAllMissing()
    ensures ValidateCustomsDocumentation(Obj(map[])) == Ok(map[
      "valid" := Bool(false),
      "missing_documents" := Strings(RequiredDocuments),
      "provided_documents" := Arr([]),
      "message" := Str("Missing: " + "commercial_invoice" + ", " + "packing_list" + ", " + "certificate_of_origin")])
  {
    NothingProvided();
    RequiredMessage();
  }

  lemma NothingProvided()
    ensures Missing(RequiredDocuments, Arr([])) == Ok(RequiredDocuments)
  {
    var none, c, p := Arr([]), "certificate_of_origin", "packing_list";
    assert [c][1..] == [] && [p, c][1..] == [c] && RequiredDocuments[1..] == [p, c];
    assert Missing([c], none).Ok? && Missing([c], none).value == [c];
    assert Missing([p, c], none).Ok? && Missing([p, c], none).value == [p, c];
    assert Missing(RequiredDocuments, none).Ok? && Missing(RequiredDocuments, none).value == RequiredDocuments;
  }

  lemma RequiredMessage()
    ensures "Missing: " + Join(", ", RequiredDocuments)
      == "Missing: " + "commercial_invoice" + ", " + "packing_list" + ", " + "certificate_of_origin"
  {
    var c, p, i := "certificate_of_origin", "packing_list", "commercial_invoice";
    assert [p, c][1..] == [c] && RequiredDocuments[1..] == [p, c];
    assert Join(", ", RequiredDocuments) == i + ", " + (p + ", " + c);
  }

  const HazmatIssue: string := "Requires UN hazmat classification and special handling permit"
  const CustomsWarning: string := "May require additional customs processing time"
  const NearCountries: seq<Value> := [Str("US"), Str("CA"), Str("MX")]

  /**
   * `check_compliance_status`: only a hazmat shipment has an issue, and it is
   * then not compliant; a destination outside the US, Canada and Mexico draws
   * the customs warning. The `checked_at` timestamp is left out.
   */
  function CheckComplianceStatus(params: Value): (r: Result<Object, PyError>)
    ensures r.Ok? <==> params.Obj?
    ensures !params.Obj? ==> r == Err(NoAttribute(params, "get"))
    ensures r.Ok? ==>
      var shipmentType := GetOr(params.fields, "shipment_type", Str("general"));
      var destination := GetOr(params.fields, "destination_country", Str("US"));
      && r.value.Keys == {"compliant", "issues", "warnings"}
      && (r.value["compliant"] == Bool(true) <==> shipmentType != Str("hazmat"))
      && r.value["compliant"].Bool?
      && r.value["issues"] == Strings(if shipmentType == Str("hazmat") then [HazmatIssue] else [])
      && r.value["warnings"] == Strings(if destination in NearCountries then [] else [CustomsWarning])
  {
    var shipmentType :- Get(params, "shipment_type", Str("general"));
    var destination := GetOr(params.fields, "destination_country", Str("US"));
    var issues := if shipmentType == Str("hazmat") then [HazmatIssue] else [];
    var warnings := if destination in NearCountries then [] else [CustomsWarning];
    Ok(map["compliant" := Bool(|issues| == 0), "issues" := Strings(issues), "warnings" := Strings(warnings)])
  }

  /** An empty parameter dict is a general shipment to the US: compliant, with nothing to report. */
  lemma ComplianceStatusDefaults()
    ensures CheckComplianceStatus(Obj(map[])) == Ok(map[
      "compliant" := Bool(true), "issues" := Arr([]), "warnings" := Arr([])])
  {
  }

  /** `len(v)` for a list or a dict. */
  function Length(v: Value): (n: nat)
    requires v.Arr? || v.Obj?
    ensures v.Arr? ==> n == |v.items|
    ensures v.Obj? ==> n == |v.fields|
  {
    if v.Arr? then |v.items| else |v.fields|
  }

  /**
   * `optimize_route`: the route is the stops unchanged (a copy), with 5 km
   * saved per stop. `stops` defaults to `[]`; anything without `.copy()`
   * (a string, a number, None) raises AttributeError. The random
   * `optimization_id` is left out.
   */
  function OptimizeRoute(params: Value): (r: Result<Object, PyError>)
    ensures !params.Obj? ==> r == Err(NoAttribute(params, "get"))
    ensures params.Obj? ==>
      var stops := GetOr(params.fields, "stops", Arr([]));
      && (r.Ok? <==> stops.Arr? || stops.Obj?)
      && (r.Err? ==> r.error == NoAttribute(stops, "copy"))
      && (r.Ok? ==>
        && r.value.Keys == {"original_stops", "optimized_stops", "route", "estimated_savings_km"}
        && r.value["route"] == stops
        && r.value["original_stops"] == r.value["optimized_stops"] == Int(Length(stops))
        && r.value["estimated_savings_km"] == Int(5 * Length(stops)))
  {
    var stops :- Get(params, "stops", Arr([]));
    if !(stops.Arr? || stops.Obj?) then Err(NoAttribute(stops, "copy"))
    else
      var optimized := stops;
      Ok(map[
        "original_stops" := Int(Length(stops)),
        "optimized_stops" := Int(Length(optimized)),
        "route" := optimized,
        "estimated_savings_km" := Int(Length(stops) * 5)])
  }

  const Chicago: Object := map["city" := Str("Chicago"), "state" := Str("IL"), "country" := Str("US")]

  /**
   * `track_shipment`: every shipment is in transit in Chicago; the tracking
   * number (default `""`) is echoed. The two timestamps are left out.
   */
  function TrackShipment(params: Value): (r: Result<Object, PyError>)
    ensures r.Ok? <==> params.Obj?
    ensures !params.Obj? ==> r == Err(NoAttribute(params, "get"))
    ensures r.Ok? ==>
      && r.value.Keys == {"tracking_number", "status", "current_location"}
      && r.value["tracking_number"] == GetOr(params.fields, "tracking_number", Str(""))
      && r.value["status"] == Str("in_transit")
      && r.value["current_location"] == Obj(Chicago)
  {
    var trackingNumber :- Get(params, "tracking_number", Str(""));
    Ok(map["tracking_number" := trackingNumber, "status" := Str("in_transit"), "current_location" := Obj(Chicago)])
  }
}

/** The district and upazila reference lists (`District.json`, `Upozila.json`)
    and the upazila option filter that the forms derive from a chosen district
    name. The lists themselves are loaded over the network; here they are values. */
module Geo {
  import opened Js
  import opened Text

  /** An `id` or `district_id` as decoded from JSON: a number or a string. */
  datatype JsId = NumId(n: nat) | StrId(s: string)

  datatype District = District(id: JsId, name: string)
  datatype Upazila = Upazila(id: JsId, districtId: JsId, name: string)

  /** How a form compares an upazila's `district_id` with the district's `id`. */
  datatype IdComparison =
    | Strict    // `a === b`
    | AsString  // `a.toString() === b.toString()`

  /** `x.toString()` */
  function IdString(x: JsId): string {
    match x
    case NumId(n) => Decimal(n)
    case StrId(s) => s
  }

  predicate IdsMatch(cmp: IdComparison, a: JsId, b: JsId) {
    match cmp
    case Strict => a == b
    case AsString => IdString(a) == IdString(b)
  }

  /** Strict equality implies string equality. */
  lemma StrictImpliesAsString(a: JsId, b: JsId)
    requires IdsMatch(Strict, a, b)
    ensures IdsMatch(AsString, a, b)
  {
  }

  /** Between two numeric ids, or two string ids, the two comparisons agree. */
  lemma SameKindComparisonsAgree(a: JsId, b: JsId)
    requires a.NumId? == b.NumId?
    ensures IdsMatch(Strict, a, b) <==> IdsMatch(AsString, a, b)
  {
    if a.NumId? && IdString(a) == IdString(b) {
      DecimalInjective(a.n, b.n);
    }
  }

  /** A numeric id and the string of its digits match only by string comparison. */
  lemma MixedKindsDiffer()
    ensures IdsMatch(AsString, NumId(7), StrId("7"))
    ensures !IdsMatch(Strict, NumId(7), StrId("7"))
  {
    assert Decimal(7) == "7";
  }

  /** `districts.find(d => d.name === name)`: the first district with that name. */
  function FindDistrict(districts: seq<District>, name: string): (r: Option<District>)
    ensures r.None? <==> forall i :: 0 <= i < |districts| ==> districts[i].name != name
    ensures r.Some? ==> r.value in districts && r.value.name == name
    ensures r.Some? ==> exists i :: 0 <= i < |districts| && districts[i] == r.value &&
                          forall j :: 0 <= j < i ==> districts[j].name != name
  {
    if districts == [] then None
    else if districts[0].name == name then Some(districts[0])
    else
      var r := FindDistrict(districts[1..], name);
      assert r.Some? ==> forall j :: 1 <= j < |districts| ==> districts[j] == districts[1..][j - 1];
      r
  }

  /** `upazilas.filter(u => <u.district_id matches id>)`. */
  function FilterByDistrict(upazilas: seq<Upazila>, cmp: IdComparison, id: JsId): (r: seq<Upazila>)
    ensures |r| <= |upazilas|
    ensures forall u :: u in r <==> u in upazilas && IdsMatch(cmp, u.districtId, id)
  {
    if upazilas == [] then []
    else
      var rest := FilterByDistrict(upazilas[1..], cmp, id);
      assert forall u :: u in upazilas <==> u == upazilas[0] || u in upazilas[1..];
      if IdsMatch(cmp, upazilas[0].districtId, id) then [upazilas[0]] + rest else rest
  }

  /** The filter keeps the original order: it distributes over concatenation. */
  lemma {:induction false} FilterByDistrictAppend(a: seq<Upazila>, b: seq<Upazila>, cmp: IdComparison, id: JsId)
    ensures FilterByDistrict(a + b, cmp, id) == FilterByDistrict(a, cmp, id) + FilterByDistrict(b, cmp, id)
    decreases |a|
  {
    if a != [] {
      assert (a + b)[1..] == a[1..] + b;
      FilterByDistrictAppend(a[1..], b, cmp, id);
    } else {
      assert a + b == b;
    }
  }

  /** A list whose every entry matches passes through unchanged. */
  lemma {:induction false} FilterByDistrictKeepsAll(upazilas: seq<Upazila>, cmp: IdComparison, id: JsId)
    requires forall i :: 0 <= i < |upazilas| ==> IdsMatch(cmp, upazilas[i].districtId, id)
    ensures FilterByDistrict(upazilas, cmp, id) == upazilas
    decreases |upazilas|
  {
    if upazilas != [] {
      FilterByDistrictKeepsAll(upazilas[1..], cmp, id);
    }
  }

  /** The options shown after choosing the district named `name`: the upazilas
      of the first district so named, or none when no district has that name. */
  function UpazilaOptions(districts: seq<District>, upazilas: seq<Upazila>, name: string, cmp: IdComparison): (r: seq<Upazila>)
    ensures FindDistrict(districts, name).None? ==> r == []
    ensures FindDistrict(districts, name).Some? ==>
              forall u :: u in r <==> u in upazilas && IdsMatch(cmp, u.districtId, FindDistrict(districts, name).value.id)
  {
    match FindDistrict(districts, name)
    case None => []
    case Some(d) => FilterByDistrict(upazilas, cmp, d.id)
  }
}

/** The public donor search form: the upazila options of the chosen district
    and the query the search sends. */
module Search {
  import opened Js
  import opened Geo
  import opened FormUrlEncoded
  import opened Records

  /** The three form fields the search reads (`form.bloodGroup.value`, ...). */
  datatype DonorQuery = DonorQuery(bloodGroup: string, district: string, upazila: string)

  /** The pairs the search means to send, in the order of its URL. */
  function QueryPairs(q: DonorQuery): seq<(string, string)> {
    [("bloodGroup", q.bloodGroup), ("district", q.district), ("upazila", q.upazila)]
  }

  /** The three values as a form decoder reads them back. */
  function Decoded(q: DonorQuery): DonorQuery {
    DonorQuery(Decode(q.bloodGroup), Decode(q.district), Decode(q.upazila))
  }

  /** No value holds the `&` that would end its pair early. */
  predicate NoAmpersand(q: DonorQuery) {
    '&' !in q.bloodGroup && '&' !in q.district && '&' !in q.upazila
  }

  /** The query string of `handleSearch` as written: the three form values are
      pasted into the URL without escaping, so the service reads them decoded
      (a `+` as a space). */
  function SearchQueryAsWritten(q: DonorQuery): (s: string)
    ensures NoAmpersand(q) ==> Parse(s) == QueryPairs(Decoded(q))
  {
    if NoAmpersand(q) then
      PlainKeysOfQuery(q);
      ParseSerializeRaw(QueryPairs(q));
      SerializeRaw(QueryPairs(q))
    else SerializeRaw(QueryPairs(q))
  }

  lemma PlainKeysOfQuery(q: DonorQuery)
    ensures forall k :: 0 <= k < |QueryPairs(q)| ==> Plain(QueryPairs(q)[k].0)
  {
    assert Plain("bloodGroup") && Plain("district") && Plain("upazila");
  }

  /** The query string with each value escaped by `encodeURIComponent`: the
      service reads back exactly the three form values. */
  function SearchQuery(q: DonorQuery): (s: string)
    ensures Parse(s) == QueryPairs(q)
  {
    ParseSerialize(QueryPairs(q));
    Serialize(QueryPairs(q))
  }

  /** Unescaped, the query reaches the service intact only while the values
      hold no `+`, `%`, `&` or `=`. */
  lemma AsWrittenPlainValues(q: DonorQuery)
    requires Plain(q.bloodGroup) && Plain(q.district) && Plain(q.upazila)
    ensures Parse(SearchQueryAsWritten(q)) == QueryPairs(q)
  {
    ParseSerializeRawPlain(QueryPairs(q));
  }

  /** A search for group A+ reaches the service as a search for "A ": the `+`
      of four of the eight blood groups is read as a space. */
  lemma AsWrittenLosesPlus()
    ensures Parse(SearchQueryAsWritten(DonorQuery("A+", "Dhaka", "Savar")))
         == [("bloodGroup", "A "), ("district", "Dhaka"), ("upazila", "Savar")]
  {
    assert NoAmpersand(DonorQuery("A+", "Dhaka", "Savar"));
    assert Decode("Dhaka") == "Dhaka" by { DecodePlain("Dhaka"); }
    assert Decode("Savar") == "Savar" by { DecodePlain("Savar"); }
    PlusBecomesSpace('A');
  }

  /** The state of the search page that `handleDistrictChange` writes. */
  class SearchPage {
    var districts: seq<District>
    var upazilas: seq<Upazila>
    var filteredUpazilas: seq<Upazila>
    var searching: bool
    var donors: seq<UserRecord>

    constructor (districts: seq<District>, upazilas: seq<Upazila>)
      ensures this.districts == districts && this.upazilas == upazilas && filteredUpazilas == []
      ensures !searching && donors == []
    {
      this.districts, this.upazilas := districts, upazilas;
      filteredUpazilas, searching, donors := [], false, [];
    }

    /** `handleSearch` up to the request: the spinner shows and the query is
        sent, the three form values pasted in unescaped as written, so the
        service reads them decoded. */
    method Search(bloodGroup: string, district: string, upazila: string) returns (query: string)
      modifies this
      ensures searching
      ensures query == SearchQueryAsWritten(DonorQuery(bloodGroup, district, upazila))
      ensures '&' !in bloodGroup && '&' !in district && '&' !in upazila ==>
                Parse(query) == [("bloodGroup", Decode(bloodGroup)), ("district", Decode(district)), ("upazila", Decode(upazila))]
      ensures districts == old(districts) && upazilas == old(upazilas) && filteredUpazilas == old(filteredUpazilas)
      ensures donors == old(donors)
    {
      searching := true;
      query := SearchQueryAsWritten(DonorQuery(bloodGroup, district, upazila));
    }

    /** The donors arrived: they replace the shown list and the spinner goes. */
    method Found(result: seq<UserRecord>)
      modifies this
      ensures donors == result && !searching
      ensures districts == old(districts) && upazilas == old(upazilas) && filteredUpazilas == old(filteredUpazilas)
    {
      donors := result;
      searching := false;
    }

    /** `handleDistrictChange`: ids are compared with `===`, so a numeric id
        never matches a string id. */
    method DistrictChanged(name: string)
      modifies this
      ensures FindDistrict(districts, name).None? ==> filteredUpazilas == []
      ensures FindDistrict(districts, name).Some? ==>
                filteredUpazilas == FilterByDistrict(upazilas, Strict, FindDistrict(districts, name).value.id)
      ensures forall u :: u in filteredUpazilas <==>
                u in upazilas && FindDistrict(districts, name).Some? &&
                u.districtId == FindDistrict(districts, name).value.id
      ensures districts == old(districts) && upazilas == old(upazilas)
      ensures searching == old(searching) && donors == old(donors)
    {
      var district := FindDistrict(districts, name);
      if district.Some? {
        filteredUpazilas := FilterByDistrict(upazilas, Strict, district.value.id);
      } else {
        filteredUpazilas := [];
      }
    }

    /** `disabled={filteredUpazilas.length === 0}`, the same rule the request
        form writes out for its own upazila select. */
    function UpazilaSelectDisabled(): (b: bool)
      reads this
      ensures b <==> filteredUpazilas == []
    {
      |filteredUpazilas| == 0
    }
  }
}

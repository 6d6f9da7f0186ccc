/** The edit-request screen: the body it sends names only the nine descriptive
    fields, the requester is shown read-only, and success is a non-zero
    `modifiedCount`. */
module UpdateDonationRequest {
  import opened Js
  import opened Records

  /** The keys of `updatedInfo`. */
  const EditableKeys: set<string> := {
    "recipientName", "recipientDistrict", "recipientUpazila", "hospitalName",
    "fullAddress", "bloodGroup", "donationDate", "donationTime", "requestMessage"
  }

  /** Fields of a stored request that an edit never sends. */
  const ProtectedKeys: set<string> := {
    "status", "donorName", "donorEmail", "requesterName", "requesterEmail"
  }

  /** `updatedInfo`, the body of `PATCH /update-donation-request/:id`, as a JSON object. */
  function UpdatedInfo(form: RequestForm): (p: map<string, string>)
    ensures p.Keys == EditableKeys
    ensures p.Keys !! ProtectedKeys
    ensures p["recipientName"] == form.recipientName
    ensures p["recipientDistrict"] == form.district && p["recipientUpazila"] == form.upazila
    ensures p["hospitalName"] == form.hospitalName && p["fullAddress"] == form.fullAddress
    ensures p["bloodGroup"] == form.bloodGroup
    ensures p["donationDate"] == form.donationDate && p["donationTime"] == form.donationTime
    ensures p["requestMessage"] == form.requestMessage
  {
    map[
      "recipientName" := form.recipientName,
      "recipientDistrict" := form.district,
      "recipientUpazila" := form.upazila,
      "hospitalName" := form.hospitalName,
      "fullAddress" := form.fullAddress,
      "bloodGroup" := form.bloodGroup,
      "donationDate" := form.donationDate,
      "donationTime" := form.donationTime,
      "requestMessage" := form.requestMessage
    ]
  }

  /** The payload has exactly nine fields. */
  lemma NineFields(form: RequestForm)
    ensures |UpdatedInfo(form).Keys| == 9
  {
    var k := UpdatedInfo(form).Keys;
    assert k == {"recipientName"} + {"recipientDistrict"} + {"recipientUpazila"} + {"hospitalName"}
              + {"fullAddress"} + {"bloodGroup"} + {"donationDate"} + {"donationTime"} + {"requestMessage"};
  }

  /** The descriptive fields of a stored request, under the keys the service uses. */
  function Descriptive(r: DonationRequest): (m: map<string, string>)
    ensures m.Keys == EditableKeys
  {
    map[
      "recipientName" := r.recipientName,
      "recipientDistrict" := r.recipientDistrict,
      "recipientUpazila" := r.recipientUpazila,
      "hospitalName" := r.hospitalName,
      "fullAddress" := r.fullAddress,
      "bloodGroup" := r.bloodGroup,
      "donationDate" := r.donationDate,
      "donationTime" := r.donationTime,
      "requestMessage" := r.requestMessage
    ]
  }

  /** The form as first shown: every input's `defaultValue` taken from the request. */
  function DefaultForm(r: DonationRequest): RequestForm {
    RequestForm(r.recipientName, r.recipientDistrict, r.recipientUpazila, r.hospitalName,
                r.fullAddress, r.bloodGroup, r.donationDate, r.donationTime, r.requestMessage)
  }

  /** The options of the blood-group select. */
  const BloodGroupOptions: seq<string> := ["A+", "A-", "B+", "B-", "AB+", "AB-", "O+", "O-"]

  /** What an untouched uncontrolled `<select>` submits. Its `defaultValue`
      is applied once, when the select mounts: it holds if the options were
      already there and one carries it. Otherwise the first option is chosen,
      and a select without options submits "". */
  function SelectValue(options: seq<string>, presentAtMount: bool, defaultValue: string): (v: string)
    ensures presentAtMount && defaultValue in options ==> v == defaultValue
    ensures !(presentAtMount && defaultValue in options) && options != [] ==> v == options[0]
    ensures options == [] ==> v == ""
    ensures v == defaultValue <==>
              (presentAtMount && defaultValue in options) || (options != [] && options[0] == defaultValue)
              || (options == [] && defaultValue == "")
  {
    if presentAtMount && defaultValue in options then defaultValue
    else if options != [] then options[0]
    else ""
  }

  /** The values an untouched form submits. `districtNames` and `upazilaNames`
      are the fetched lists, and the two flags say whether each had arrived
      when the form mounted, that is, before the request itself. */
  function SubmittedForm(r: DonationRequest, districtNames: seq<string>, districtsAtMount: bool,
                         upazilaNames: seq<string>, upazilasAtMount: bool): (f: RequestForm)
    ensures f.recipientName == r.recipientName && f.hospitalName == r.hospitalName
    ensures f.fullAddress == r.fullAddress && f.requestMessage == r.requestMessage
    ensures f.donationDate == r.donationDate && f.donationTime == r.donationTime
    ensures r.bloodGroup in BloodGroupOptions ==> f.bloodGroup == r.bloodGroup
    ensures r.bloodGroup !in BloodGroupOptions ==> f.bloodGroup == "A+"
    ensures f.district == SelectValue(districtNames, districtsAtMount, r.recipientDistrict)
    ensures f.upazila == SelectValue(upazilaNames, upazilasAtMount, r.recipientUpazila)
  {
    var d := DefaultForm(r);
    d.(bloodGroup := SelectValue(BloodGroupOptions, true, d.bloodGroup),
       district := SelectValue(districtNames, districtsAtMount, d.district),
       upazila := SelectValue(upazilaNames, upazilasAtMount, d.upazila))
  }

  /** Submitting the form untouched sends back the request's own descriptive
      fields, provided both lists had arrived when the form mounted and the
      stored blood group, district and upazila are among their options. */
  lemma UntouchedFormRoundTrip(r: DonationRequest, districtNames: seq<string>, upazilaNames: seq<string>)
    requires r.bloodGroup in BloodGroupOptions
    requires r.recipientDistrict in districtNames && r.recipientUpazila in upazilaNames
    ensures UpdatedInfo(SubmittedForm(r, districtNames, true, upazilaNames, true)) == Descriptive(r)
  {
    assert SubmittedForm(r, districtNames, true, upazilaNames, true) == DefaultForm(r);
  }

  /** When the district list arrives only after the form mounted, or lacks the
      stored name, the untouched form sends the first district instead. */
  lemma LateDistrictsChangeTheDistrict(r: DonationRequest, districtNames: seq<string>, districtsAtMount: bool,
                                       upazilaNames: seq<string>, upazilasAtMount: bool)
    requires !districtsAtMount || r.recipientDistrict !in districtNames
    requires districtNames != [] && districtNames[0] != r.recipientDistrict
    ensures UpdatedInfo(SubmittedForm(r, districtNames, districtsAtMount, upazilaNames, upazilasAtMount))["recipientDistrict"]
              == districtNames[0]
    ensures UpdatedInfo(SubmittedForm(r, districtNames, districtsAtMount, upazilaNames, upazilasAtMount)) != Descriptive(r)
  {
    assert Descriptive(r)["recipientDistrict"] == r.recipientDistrict;
  }

  /** What is rendered: nothing editable until the request is loaded; then the
      requester's name and email read-only, above the prefilled form. */
  datatype EditView = EditView(requesterName: Option<string>, requesterEmail: Option<string>, form: RequestForm)

  function EditScreen(request: Option<DonationRequest>): (v: Option<EditView>)
    ensures v.None? <==> request.None?
    ensures v.Some? ==> v.value.requesterName == request.value.requesterName
    ensures v.Some? ==> v.value.requesterEmail == request.value.requesterEmail
    ensures v.Some? ==> v.value.form == DefaultForm(request.value)
  {
    match request
    case None => None
    case Some(r) => Some(EditView(r.requesterName, r.requesterEmail, DefaultForm(r)))
  }

  /** `handleUpdate`: the body sent, and whether it goes back to the request list. */
  datatype UpdateOutcome = UpdateOutcome(payload: map<string, string>, navigate: bool)

  function HandleUpdate(form: RequestForm, modifiedCount: int): (o: UpdateOutcome)
    ensures o.payload == UpdatedInfo(form)
    ensures "requesterName" !in o.payload && "requesterEmail" !in o.payload && "status" !in o.payload
    ensures o.navigate <==> modifiedCount > 0
  {
    UpdateOutcome(UpdatedInfo(form), modifiedCount > 0)
  }
}

/** The create-request screen: blocked accounts are refused before anything is
    sent, every request built starts `pending` and is owned by the signed-in
    user, and choosing a district narrows the upazila options. */
module CreateDonationRequest {
  import opened Js
  import opened Records
  import opened Geo

  /** `dbUser?.status === 'blocked'` */
  predicate IsBlocked(dbUser: Option<UserRecord>) {
    dbUser.Some? && dbUser.value.status == Blocked
  }

  /** The body of `POST /donation-requests`. `createdAt` is the clock's reading. */
  datatype NewRequest = NewRequest(
    requesterName: Option<string>,
    requesterEmail: Option<string>,
    recipientName: string,
    recipientDistrict: string,
    recipientUpazila: string,
    hospitalName: string,
    fullAddress: string,
    bloodGroup: string,
    donationDate: string,
    donationTime: string,
    requestMessage: string,
    status: string,
    createdAt: int)

  function BuildRequest(user: Option<AuthUser>, form: RequestForm, now: int): (r: NewRequest)
    ensures r.status == Pending
    ensures r.requesterEmail == EmailOf(user) && r.requesterName == NameOf(user)
    ensures r.recipientName == form.recipientName && r.recipientDistrict == form.district
    ensures r.recipientUpazila == form.upazila && r.hospitalName == form.hospitalName
    ensures r.fullAddress == form.fullAddress && r.bloodGroup == form.bloodGroup
    ensures r.donationDate == form.donationDate && r.donationTime == form.donationTime
    ensures r.requestMessage == form.requestMessage && r.createdAt == now
  {
    NewRequest(NameOf(user), EmailOf(user), form.recipientName, form.district, form.upazila,
               form.hospitalName, form.fullAddress, form.bloodGroup, form.donationDate,
               form.donationTime, form.requestMessage, Pending, now)
  }

  /** What `handleSubmit` does: refuse, or post the request and, when the
      response carries an `insertedId`, go to the request list. */
  datatype SubmitOutcome = Denied | Posted(payload: NewRequest, navigate: bool)

  function HandleSubmit(dbUser: Option<UserRecord>, user: Option<AuthUser>, form: RequestForm,
                        now: int, insertedId: Option<string>): (o: SubmitOutcome)
    ensures o.Denied? <==> IsBlocked(dbUser)
    ensures o.Posted? ==> o.payload.status == Pending && o.payload.requesterEmail == EmailOf(user)
    ensures o.Posted? ==> o.payload == BuildRequest(user, form, now)
    ensures o.Posted? ==> (o.navigate <==> Truthy(insertedId))
  {
    if IsBlocked(dbUser) then Denied
    else Posted(BuildRequest(user, form, now), Truthy(insertedId))
  }

  /** The submit button's `disabled` attribute. */
  predicate SubmitDisabled(dbUser: Option<UserRecord>) {
    IsBlocked(dbUser)
  }

  /** The button is disabled exactly for the accounts the handler refuses, and
      an account that is unblocked can submit again. */
  lemma SubmitDisabledIffDenied(dbUser: Option<UserRecord>, user: Option<AuthUser>, form: RequestForm,
                                now: int, insertedId: Option<string>)
    ensures SubmitDisabled(dbUser) <==> HandleSubmit(dbUser, user, form, now, insertedId).Denied?
    ensures dbUser.Some? ==>
              HandleSubmit(Some(dbUser.value.(status := Active)), user, form, now, insertedId).Posted?
  {
  }

  /** The form's reference lists and its current upazila options. */
  class CreateRequestForm {
    var districts: seq<District>
    var upazilas: seq<Upazila>
    var filteredUpazilas: seq<Upazila>

    constructor (districts: seq<District>, upazilas: seq<Upazila>)
      ensures this.districts == districts && this.upazilas == upazilas && filteredUpazilas == []
    {
      this.districts := districts;
      this.upazilas := upazilas;
      filteredUpazilas := [];
    }

    /** `handleDistrictChange`: ids are compared as strings here. */
    method DistrictChanged(name: string)
      modifies this
      ensures filteredUpazilas == UpazilaOptions(districts, upazilas, name, AsString)
      ensures districts == old(districts) && upazilas == old(upazilas)
    {
      var d := FindDistrict(districts, name);
      if d.Some? {
        filteredUpazilas := FilterByDistrict(upazilas, AsString, d.value.id);
      } else {
        filteredUpazilas := [];
      }
    }

    /** The upazila select is disabled while there are no options. */
    function UpazilaSelectDisabled(): (b: bool)
      reads this
      ensures b <==> filteredUpazilas == []
    {
      |filteredUpazilas| == 0
    }
  }
}

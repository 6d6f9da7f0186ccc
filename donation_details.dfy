/** The donation-details screen: who is offered the "Donate Now" action, what
    the claim sends, and how the screen's copy of the request changes once the
    service reports that the claim went through. */
module DonationDetails {
  import opened Js
  import opened Records

  /** `user?.email === request.requesterEmail` */
  predicate IsOwner(user: Option<AuthUser>, request: DonationRequest) {
    EmailOf(user) == request.requesterEmail
  }

  /** What the screen shows under the request details. */
  datatype Action =
    | DonateNow                   // the "Donate Now" button
    | OwnRequestNotice            // "You cannot donate to your own request."
    | LoginPrompt                 // "Please login to donate."
    | StatusBadge(status: string) // "Status: <STATUS>"

  function ActionFor(user: Option<AuthUser>, request: DonationRequest): (a: Action)
    ensures a == DonateNow <==> request.status == Pending && user.Some? && EmailOf(user) != request.requesterEmail
    ensures a == OwnRequestNotice <==> request.status == Pending && user.Some? && EmailOf(user) == request.requesterEmail
    ensures a == LoginPrompt <==> request.status == Pending && user.None?
    ensures a.StatusBadge? <==> request.status != Pending
    ensures a.StatusBadge? ==> a.status == request.status
  {
    if request.status == Pending then
      if user.Some? then
        if !IsOwner(user, request) then DonateNow else OwnRequestNotice
      else LoginPrompt
    else StatusBadge(request.status)
  }

  /** `toUpperCase` on one character; other alphabets are not modelled. */
  function UpperChar(c: char): char {
    if 'a' <= c <= 'z' then (c as int - 32) as char else c
  }

  /** The text of the status badge, `Status: {request.status.toUpperCase()}`. */
  function BadgeText(status: string): (t: string)
    ensures |t| == |"Status: "| + |status|
    ensures t[..|"Status: "|] == "Status: "
    ensures forall i :: 0 <= i < |status| ==> t[|"Status: "| + i] == UpperChar(status[i])
    ensures forall j :: |"Status: "| <= j < |t| ==> !('a' <= t[j] <= 'z')
  {
    "Status: " + seq(|status|, i requires 0 <= i < |status| => UpperChar(status[i]))
  }

  /** A claimed request's badge reads `Status: INPROGRESS`. */
  lemma ClaimedBadge()
    ensures BadgeText(InProgress) == "Status: INPROGRESS"
  {
    var t := BadgeText(InProgress);
    assert t[|"Status: "|..] == "INPROGRESS";
    assert t == t[..|"Status: "|] + t[|"Status: "|..];
  }

  /** The "Donor Assigned" banner: the donor's name and email, when shown. */
  function DonorBanner(request: DonationRequest): (b: Option<(Option<string>, Option<string>)>)
    ensures b.Some? <==> request.status == InProgress
    ensures b.Some? ==> b.value == (request.donorName, request.donorEmail)
  {
    if request.status == InProgress then Some((request.donorName, request.donorEmail)) else None
  }

  /** The body of the claim: `donorInfo`. */
  datatype DonorInfo = DonorInfo(donorName: Option<string>, donorEmail: Option<string>, status: string)

  function ClaimPayload(user: Option<AuthUser>): (p: DonorInfo)
    ensures p.status == InProgress
    ensures p.donorName == NameOf(user) && p.donorEmail == EmailOf(user)
  {
    DonorInfo(NameOf(user), EmailOf(user), InProgress)
  }

  /** The local copy after a claim the service accepted: in progress, with the
      signed-in user as donor, and every other field as it was. */
  function Claimed(request: DonationRequest, user: Option<AuthUser>): (r: DonationRequest)
    ensures r.status == InProgress
    ensures r.donorName == NameOf(user) && r.donorEmail == EmailOf(user)
    ensures r.(status := request.status, donorName := request.donorName, donorEmail := request.donorEmail) == request
  {
    request.(status := InProgress, donorName := NameOf(user), donorEmail := EmailOf(user))
  }

  /** A claim that the screen offered never names the requester as donor, and
      afterwards the screen shows the claimant in the banner and no longer
      offers the action. */
  lemma ClaimOfferedOnlyToOthers(user: Option<AuthUser>, request: DonationRequest)
    requires ActionFor(user, request) == DonateNow
    ensures Claimed(request, user).donorEmail != Claimed(request, user).requesterEmail
    ensures DonorBanner(Claimed(request, user)) == Some((NameOf(user), EmailOf(user)))
    ensures ActionFor(user, Claimed(request, user)) == StatusBadge(InProgress)
  {
  }

  /** The screen's state: the signed-in user and the request once loaded. */
  class DonationDetailsPage {
    const user: Option<AuthUser>
    var request: Option<DonationRequest>

    constructor (user: Option<AuthUser>)
      ensures this.user == user && request == None
    {
      this.user := user;
      request := None;
    }

    /** The response of `GET /donation-request/:id`. */
    method Loaded(r: DonationRequest)
      modifies this
      ensures request == Some(r)
    {
      request := Some(r);
    }

    /** `handleConfirmDonation`; the form exists only once the request is loaded.
        `modifiedCount` is the service's answer to the claim it sends. */
    method ConfirmDonation(modifiedCount: int) returns (sent: DonorInfo)
      requires request.Some?
      modifies this
      ensures sent == ClaimPayload(user)
      ensures request == if modifiedCount > 0 then Some(Claimed(old(request).value, user)) else old(request)
    {
      sent := ClaimPayload(user);
      if modifiedCount > 0 {
        request := Some(Claimed(request.value, user));
      }
    }
  }
}

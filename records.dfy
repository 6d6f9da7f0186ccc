/** The records the dashboard screens exchange with the service: the signed-in
    account, the stored user, the donation request and the request form. */
module Records {
  import opened Js

  // Request statuses as the service stores them.
  const Pending := "pending"
  const InProgress := "inprogress"
  const Done := "done"
  const Canceled := "canceled"

  // User roles and user statuses.
  const Donor := "donor"
  const Volunteer := "volunteer"
  const Admin := "admin"
  const Active := "active"
  const Blocked := "blocked"

  /** The account of the authentication provider (its `user` object). */
  datatype AuthUser = AuthUser(displayName: Option<string>, email: Option<string>, photoURL: Option<string>)

  /** `user?.email` */
  function EmailOf(user: Option<AuthUser>): (e: Option<string>)
    ensures user.None? ==> e.None?
  {
    if user.Some? then user.value.email else None
  }

  /** `user?.displayName` */
  function NameOf(user: Option<AuthUser>): (n: Option<string>)
    ensures user.None? ==> n.None?
  {
    if user.Some? then user.value.displayName else None
  }

  /** A user as the service stores it (`dbUser`, a row of the registry). */
  datatype UserRecord = UserRecord(id: string, name: string, email: string, role: string, status: string)

  /** A stored donation request (`_id` is `id`). */
  datatype DonationRequest = DonationRequest(
    id: string,
    requesterName: Option<string>,
    requesterEmail: Option<string>,
    recipientName: string,
    recipientDistrict: string,
    recipientUpazila: string,
    hospitalName: string,
    fullAddress: string,
    bloodGroup: string,
    donationDate: string,
    donationTime: string,
    requestMessage: string,
    status: string,
    donorName: Option<string>,
    donorEmail: Option<string>)

  function RequestId(r: DonationRequest): string {
    r.id
  }

  function UserId(u: UserRecord): string {
    u.id
  }

  /** The values of the named inputs of the create and edit request forms. */
  datatype RequestForm = RequestForm(
    recipientName: string,
    district: string,
    upazila: string,
    hospitalName: string,
    fullAddress: string,
    bloodGroup: string,
    donationDate: string,
    donationTime: string,
    requestMessage: string)
}

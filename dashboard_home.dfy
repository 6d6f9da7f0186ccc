/** The dashboard home: the requester's recent requests, changed in place after
    a confirmed delete or a status change that the service reports as applied. */
module DashboardHome {
  import opened Js
  import opened Records
  import opened Lists

  /** `recentRequests.filter(req => req._id !== id)` */
  function WithoutRequest(list: seq<DonationRequest>, id: string): (r: seq<DonationRequest>)
    ensures forall x :: x in r <==> x in list && x.id != id
    ensures |r| == |list| - CountKey(list, RequestId, id)
  {
    RemoveWhereCount(list, RequestId, id);
    RemoveWhere(list, RequestId, id)
  }

  /** `recentRequests.map(req => req._id === id ? { ...req, status } : req)` */
  function WithStatus(list: seq<DonationRequest>, id: string, status: string): (r: seq<DonationRequest>)
    ensures |r| == |list|
    ensures forall i :: 0 <= i < |list| ==> r[i].id == list[i].id
    ensures forall i :: 0 <= i < |list| && list[i].id != id ==> r[i] == list[i]
    ensures forall i :: 0 <= i < |list| && list[i].id == id ==>
              r[i].status == status && r[i].(status := list[i].status) == list[i]
  {
    UpdateWhere(list, RequestId, id, (x: DonationRequest) => x.(status := status))
  }

  /** Deletion keeps the order of the rows that remain. */
  lemma WithoutRequestKeepsOrder(a: seq<DonationRequest>, b: seq<DonationRequest>, id: string)
    ensures WithoutRequest(a + b, id) == WithoutRequest(a, id) + WithoutRequest(b, id)
  {
    RemoveWhereAppend(a, b, RequestId, id);
  }

  /** Deleting a row that is not listed changes nothing. */
  lemma WithoutAbsentRequest(list: seq<DonationRequest>, id: string)
    requires forall i :: 0 <= i < |list| ==> list[i].id != id
    ensures WithoutRequest(list, id) == list
  {
    RemoveWhereAbsent(list, RequestId, id);
  }

  /** A status change followed by a delete of the same row leaves what the delete alone leaves. */
  lemma DeleteAfterStatusChange(list: seq<DonationRequest>, id: string, status: string)
    ensures WithoutRequest(WithStatus(list, id, status), id) == WithoutRequest(list, id)
  {
    RemoveAfterUpdate(list, RequestId, id, (x: DonationRequest) => x.(status := status));
  }

  /** What a table row shows besides the request's own fields. */
  datatype RowView = RowView(donor: Option<(Option<string>, Option<string>)>, doneAndCancel: bool)

  function RowFor(r: DonationRequest): (v: RowView)
    ensures v.doneAndCancel <==> r.status == InProgress
    ensures v.donor.Some? <==> r.status == InProgress
    ensures v.donor.Some? ==> v.donor.value == (r.donorName, r.donorEmail)
  {
    if r.status == InProgress then RowView(Some((r.donorName, r.donorEmail)), true)
    else RowView(None, false)
  }

  /** Once Done or Cancel has been applied to a row, its buttons are gone. */
  lemma StatusChangeHidesActions(list: seq<DonationRequest>, id: string, status: string, i: nat)
    requires status == Done || status == Canceled
    requires i < |list| && list[i].id == id
    ensures !RowFor(WithStatus(list, id, status)[i]).doneAndCancel
  {
  }

  /** The table appears only when there is at least one request. */
  function TableShown(list: seq<DonationRequest>): (b: bool)
    ensures b <==> list != []
  {
    |list| > 0
  }

  class DashboardHomePage {
    var recentRequests: seq<DonationRequest>

    constructor ()
      ensures recentRequests == []
    {
      recentRequests := [];
    }

    /** The response of `GET /donation-requests/recent/:email`. */
    method Loaded(list: seq<DonationRequest>)
      modifies this
      ensures recentRequests == list
    {
      recentRequests := list;
    }

    /** `handleDelete`: `confirmed` is the dialog's answer and `deletedCount` the
        service's answer to the delete sent when it is confirmed. */
    method Delete(id: string, confirmed: bool, deletedCount: int) returns (sent: bool)
      modifies this
      ensures sent == confirmed
      ensures recentRequests ==
                if confirmed && deletedCount > 0 then WithoutRequest(old(recentRequests), id)
                else old(recentRequests)
    {
      sent := confirmed;
      if confirmed && deletedCount > 0 {
        recentRequests := WithoutRequest(recentRequests, id);
      }
    }

    /** `handleStatusUpdate` */
    method StatusUpdate(id: string, status: string, modifiedCount: int)
      modifies this
      ensures recentRequests ==
                if modifiedCount > 0 then WithStatus(old(recentRequests), id, status)
                else old(recentRequests)
    {
      if modifiedCount > 0 {
        recentRequests := WithStatus(recentRequests, id, status);
      }
    }
  }
}

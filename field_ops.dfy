/** The public board of active operations: a blood-group filter, a page cursor
    that every filter change resets, and page buttons shown only when there is
    more than one page. */
module FieldOps {
  import opened Js
  import opened Records
  import opened Pagination
  import opened Text
  import opened FormUrlEncoded

  const ItemsPerPage: nat := 6

  /** `Math.ceil(totalCount / itemsPerPage)` */
  function TotalPages(totalCount: nat): (n: nat)
    ensures n * ItemsPerPage >= totalCount
    ensures n > 0 ==> (n - 1) * ItemsPerPage < totalCount
  {
    CeilDiv(totalCount, ItemsPerPage)
  }

  /** The pairs the fetch means to send. */
  function QueryPairs(page: nat, bloodGroup: string): seq<(string, string)> {
    [("page", Decimal(page)), ("size", Decimal(ItemsPerPage)), ("bloodGroup", bloodGroup)]
  }

  /** The query string of the fetch as written: the blood group is pasted into
      the URL without escaping, so the service reads it decoded (a `+` as a
      space) and, past an `&`, not at all. */
  function ActiveOpsQueryAsWritten(page: nat, bloodGroup: string): (s: string)
    ensures '&' !in bloodGroup ==> Parse(s) == QueryPairs(page, Decode(bloodGroup))
  {
    if '&' in bloodGroup then SerializeRaw(QueryPairs(page, bloodGroup))
    else
      RawQueryDecodes(page, bloodGroup);
      SerializeRaw(QueryPairs(page, bloodGroup))
  }

  lemma RawQueryDecodes(page: nat, bloodGroup: string)
    requires '&' !in bloodGroup
    ensures Parse(SerializeRaw(QueryPairs(page, bloodGroup))) == QueryPairs(page, Decode(bloodGroup))
  {
    DigitsDecode(page);
    DigitsDecode(ItemsPerPage);
    PlainKeys();
    ParseSerializeRaw(QueryPairs(page, bloodGroup));
  }

  /** The query string with its values escaped: the service reads back the page,
      the page size and the filter exactly. */
  function ActiveOpsQuery(page: nat, bloodGroup: string): (s: string)
    ensures Parse(s) == QueryPairs(page, bloodGroup)
  {
    ParseSerialize(QueryPairs(page, bloodGroup));
    Serialize(QueryPairs(page, bloodGroup))
  }

  /** Unescaped, the filter O+ reaches the service as "O ", so the board lists
      no O+ operation; the page numbers arrive intact. */
  lemma AsWrittenLosesPlus(page: nat)
    ensures Parse(ActiveOpsQueryAsWritten(page, "O+")) == QueryPairs(page, "O ")
  {
    OPlus();
    assert '&' !in "O+";
  }

  lemma DigitsDecode(n: nat)
    ensures Decode(Decimal(n)) == Decimal(n)
    ensures forall i :: 0 <= i < |Decimal(n)| ==> Decimal(n)[i] != '&'
  {
    DecodePlain(Decimal(n));
  }

  lemma OPlus()
    ensures Decode("O+") == "O "
  {
    PlusBecomesSpace('O');
  }

  lemma PlainKeys()
    ensures Plain("page") && Plain("size") && Plain("bloodGroup")
  {
  }

  /** The numbered page buttons, rendered when `totalPages > 1`: up to six
      operations fit on one page, so they appear exactly from the seventh on. */
  function PagerShown(totalCount: nat): (b: bool)
    ensures b <==> totalCount > ItemsPerPage
  {
    TotalPages(totalCount) > 1
  }

  /** The groups of the filter select, after its "all groups" option "". */
  const BloodGroupOptions: seq<string> := ["A+", "A-", "B+", "B-", "O+", "O-", "AB+", "AB-"]

  /** `disabled={!bloodGroup}` on the Reset button: it is enabled exactly while
      a group filter is set. */
  function ResetDisabled(bloodGroup: string): (b: bool)
    ensures b <==> !Truthy(Some(bloodGroup))
  {
    bloodGroup == ""
  }

  /** Any group chosen in the select enables Reset, and none holds the `&`
      that would cut the unescaped query short. */
  lemma OptionsEnableReset()
    ensures forall g :: g in BloodGroupOptions ==> !ResetDisabled(g) && '&' !in g
  {
  }

  const DotGreen := "bg-green-500"
  const DotAmber := "bg-yellow-500"

  /** The colour of an operation's status dot: green for operations in
      progress, amber for every other status. */
  function StatusDot(status: string): (c: string)
    ensures c == DotGreen || c == DotAmber
    ensures c == DotGreen <==> status == InProgress
  {
    if status == InProgress then DotGreen else DotAmber
  }

  /** The response `{ result, count }`; either may be missing. */
  datatype ActiveOpsResponse = ActiveOpsResponse(result: Option<seq<DonationRequest>>, count: Option<nat>)

  /** `res.data.result || []` */
  function OperationsOf(res: ActiveOpsResponse): (ops: seq<DonationRequest>)
    ensures res.result.None? ==> ops == []
    ensures res.result.Some? ==> ops == res.result.value
  {
    if res.result.Some? then res.result.value else []
  }

  /** `res.data.count || 0` */
  function CountOf(res: ActiveOpsResponse): (n: nat)
    ensures res.count.None? ==> n == 0
    ensures res.count.Some? ==> n == res.count.value
  {
    if res.count.Some? then res.count.value else 0
  }

  class FieldOpsPage {
    var operations: seq<DonationRequest>
    var bloodGroup: string
    var currentPage: nat
    var totalCount: nat

    constructor ()
      ensures operations == [] && bloodGroup == "" && currentPage == 0 && totalCount == 0
    {
      operations, bloodGroup, currentPage, totalCount := [], "", 0, 0;
    }

    /** The query of the fetch that runs whenever the filter or the page
        changes, unescaped as written: the service reads the current page and
        the decoded filter. */
    function Query(): (q: string)
      reads this
      ensures q == ActiveOpsQueryAsWritten(currentPage, bloodGroup)
      ensures '&' !in bloodGroup ==> Parse(q) == QueryPairs(currentPage, Decode(bloodGroup))
    {
      ActiveOpsQueryAsWritten(currentPage, bloodGroup)
    }

    /** `handleBloodChange`: a new filter starts again at the first page. */
    method BloodChanged(group: string)
      modifies this
      ensures bloodGroup == group && currentPage == 0
      ensures operations == old(operations) && totalCount == old(totalCount)
    {
      bloodGroup := group;
      currentPage := 0;
    }

    /** `resetFilters`: no filter, first page; afterwards Reset is disabled. */
    method ResetFilters()
      modifies this
      ensures bloodGroup == "" && currentPage == 0 && ResetDisabled(bloodGroup)
      ensures operations == old(operations) && totalCount == old(totalCount)
    {
      bloodGroup := "";
      currentPage := 0;
    }

    /** A click on the button of page `page`, rendered only when the pager is shown. */
    method GoTo(page: nat)
      requires PagerShown(totalCount) && page < TotalPages(totalCount)
      modifies this
      ensures currentPage == page
      ensures operations == old(operations) && totalCount == old(totalCount) && bloodGroup == old(bloodGroup)
    {
      currentPage := page;
    }

    /** The fetch that runs whenever the filter or the page changes, with its response. */
    method Loaded(res: ActiveOpsResponse)
      modifies this
      ensures operations == OperationsOf(res) && totalCount == CountOf(res)
      ensures bloodGroup == old(bloodGroup) && currentPage == old(currentPage)
    {
      operations := OperationsOf(res);
      totalCount := CountOf(res);
    }
  }
}

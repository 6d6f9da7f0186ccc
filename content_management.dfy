/** The volunteer's blog table: publishing toggles and deletes, applied to the
    local list once the service reports them. */
module ContentManagement {
  import opened Lists

  const Draft := "draft"
  const Published := "published"

  /** A row of `GET /all-blogs`. */
  datatype Blog = Blog(id: string, title: string, image: string, status: string)

  function BlogId(b: Blog): string {
    b.id
  }

  /** The status a toggle asks for: drafts are published, anything else becomes a draft. */
  function NextStatus(current: string): (s: string)
    ensures current == Draft ==> s == Published
    ensures current != Draft ==> s == Draft
  {
    if current == Draft then Published else Draft
  }

  /** Toggling twice returns a draft or a published blog to where it was. */
  lemma ToggleTwice(current: string)
    requires current == Draft || current == Published
    ensures NextStatus(NextStatus(current)) == current
  {
  }

  /** Any other status is not restored: two toggles leave the blog published. */
  lemma ToggleTwiceOther(current: string)
    requires current != Draft && current != Published
    ensures NextStatus(NextStatus(current)) == Published != current
  {
  }

  /** The toggle button's caption. */
  function ToggleCaption(status: string): (c: string)
    ensures c == "Publish" <==> status == Draft
    ensures c == "Publish" || c == "Unpublish"
  {
    if status == Draft then "Publish" else "Unpublish"
  }

  /** The caption names what the click does. */
  lemma CaptionMatchesAction(status: string)
    ensures ToggleCaption(status) == "Publish" <==> NextStatus(status) == Published
  {
  }

  /** `prev.map(b => b._id === id ? { ...b, status } : b)` */
  function WithStatus(blogs: seq<Blog>, id: string, status: string): (r: seq<Blog>)
    ensures |r| == |blogs|
    ensures forall i :: 0 <= i < |blogs| && blogs[i].id != id ==> r[i] == blogs[i]
    ensures forall i :: 0 <= i < |blogs| && blogs[i].id == id ==> r[i] == blogs[i].(status := status)
  {
    UpdateWhere(blogs, BlogId, id, (b: Blog) => b.(status := status))
  }

  /** `prev.filter(b => b._id !== id)` */
  function WithoutBlog(blogs: seq<Blog>, id: string): (r: seq<Blog>)
    ensures forall b :: b in r <==> b in blogs && b.id != id
    ensures |r| == |blogs| - CountKey(blogs, BlogId, id)
  {
    RemoveWhereCount(blogs, BlogId, id);
    RemoveWhere(blogs, BlogId, id)
  }

  /** Deletion keeps the remaining blogs in their order. */
  lemma WithoutBlogKeepsOrder(a: seq<Blog>, b: seq<Blog>, id: string)
    ensures WithoutBlog(a + b, id) == WithoutBlog(a, id) + WithoutBlog(b, id)
  {
    RemoveWhereAppend(a, b, BlogId, id);
  }

  /** A status change keeps the ids and their order. */
  lemma WithStatusKeepsIds(blogs: seq<Blog>, id: string, status: string)
    ensures Keys(WithStatus(blogs, id, status), BlogId) == Keys(blogs, BlogId)
  {
    UpdateWhereKeepsKeys(blogs, BlogId, id, (b: Blog) => b.(status := status));
  }

  class ContentManagementPage {
    var blogs: seq<Blog>

    constructor ()
      ensures blogs == []
    {
      blogs := [];
    }

    /** The response of `GET /all-blogs`. */
    method Loaded(list: seq<Blog>)
      modifies this
      ensures blogs == list
    {
      blogs := list;
    }

    /** `handleStatusToggle`: the row's status at the click decides the new
        one; `modifiedCount` is the service's answer to the patch. */
    method StatusToggle(id: string, currentStatus: string, modifiedCount: int) returns (newStatus: string)
      modifies this
      ensures newStatus == NextStatus(currentStatus)
      ensures blogs == if modifiedCount > 0 then WithStatus(old(blogs), id, newStatus) else old(blogs)
    {
      newStatus := if currentStatus == Draft then Published else Draft;
      if modifiedCount > 0 {
        blogs := WithStatus(blogs, id, newStatus);
      }
    }

    /** `handleDelete`: `confirmed` is the dialog's answer. */
    method Delete(id: string, confirmed: bool, deletedCount: int) returns (sent: bool)
      modifies this
      ensures sent == confirmed
      ensures blogs == if confirmed && deletedCount > 0 then WithoutBlog(old(blogs), id) else old(blogs)
    {
      sent := confirmed;
      if confirmed && deletedCount > 0 {
        blogs := WithoutBlog(blogs, id);
      }
    }
  }
}

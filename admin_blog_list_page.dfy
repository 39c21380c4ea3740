/**
 * The administrators' blog list, frontend/src/pages/admin/BlogList.js:
 * every post, narrowed by a status filter and a search text, each refetched
 * as soon as it changes, and deletion behind a confirmation.
 */
module AdminBlogListPage {
  import opened Wrappers
  import opened PageKit
  import opened Blogs
  import opened JsNumber

  const StatusFilters: seq<string> := ["all", "published", "draft"]

  /** The `params` object of GET /admin/blogs: a missing key is `None`. */
  datatype AdminQuery = AdminQuery(status: Option<string>, search: Option<string>)

  datatype AdminBlogsRequest = ListBlogs(query: AdminQuery) | DeleteBlog(id: string)

  const DeleteFailed: string := "Failed to delete blog"

  /** `status` is sent unless the filter is 'all'; `search` only for a non-empty text. */
  function AdminParams(filter: string, searchTerm: string): (r: AdminQuery)
    ensures r.status.None? <==> filter == "all"
    ensures r.status.Some? ==> r.status.value == filter
    ensures r.search.None? <==> searchTerm == ""
    ensures r.search.Some? ==> r.search.value == searchTerm
  {
    AdminQuery(if filter != "all" then Some(filter) else None,
               if searchTerm != "" then Some(searchTerm) else None)
  }

  /** The tags cell: the first two tags, and "+n" for the n that are not shown. */
  function TagsShown(tags: seq<string>): (r: (seq<string>, Option<string>))
    ensures |r.0| == if |tags| <= 2 then |tags| else 2
    ensures r.0 == tags[..|r.0|]
    ensures r.1.Some? <==> |tags| > |r.0|
  {
    (if |tags| <= 2 then tags else tags[..2],
     if |tags| > 2 then Some("+" + NatText(|tags| - 2)) else None)
  }

  class AdminBlogsView {
    var blogs: seq<Blog>
    var loading: bool
    var filter: string
    var searchTerm: string

    constructor ()
      ensures blogs == [] && loading && filter == "all" && searchTerm == ""
    {
      blogs := [];
      loading := true;
      filter := "all";
      searchTerm := "";
    }

    /** `fetchBlogs`: failures are only logged; `loading` ends false either way. */
    method FetchBlogs(reply: Reply<seq<Blog>>) returns (requests: seq<AdminBlogsRequest>)
      modifies this
      ensures requests == [ListBlogs(AdminParams(filter, searchTerm))]
      ensures blogs == (if reply.Ok? then reply.data else old(blogs))
      ensures !loading && filter == old(filter) && searchTerm == old(searchTerm)
    {
      requests := [ListBlogs(AdminParams(filter, searchTerm))];
      if reply.Ok? {
        blogs := reply.data;
      }
      loading := false;
    }

    /** A filter button: the effect on [filter, searchTerm] refetches when the filter changed. */
    method SetFilter(status: string, reply: Reply<seq<Blog>>) returns (requests: seq<AdminBlogsRequest>)
      modifies this
      ensures filter == status && searchTerm == old(searchTerm)
      ensures status != old(filter) ==>
                requests == [ListBlogs(AdminParams(status, searchTerm))] && !loading
                && blogs == (if reply.Ok? then reply.data else old(blogs))
      ensures status == old(filter) ==> requests == [] && blogs == old(blogs) && loading == old(loading)
    {
      var before := filter;
      filter := status;
      if status != before {
        requests := FetchBlogs(reply);
      } else {
        requests := [];
      }
    }

    /** The search field: every changed keystroke refetches. */
    method SetSearchTerm(text: string, reply: Reply<seq<Blog>>) returns (requests: seq<AdminBlogsRequest>)
      modifies this
      ensures searchTerm == text && filter == old(filter)
      ensures text != old(searchTerm) ==>
                requests == [ListBlogs(AdminParams(filter, text))] && !loading
                && blogs == (if reply.Ok? then reply.data else old(blogs))
      ensures text == old(searchTerm) ==> requests == [] && blogs == old(blogs) && loading == old(loading)
    {
      var before := searchTerm;
      searchTerm := text;
      if text != before {
        requests := FetchBlogs(reply);
      } else {
        requests := [];
      }
    }

    /** `handleDelete`: declined, nothing; a failed delete raises an alert; a successful one refetches. */
    method HandleDelete(id: string, confirmed: bool, reply: Reply<()>, listReply: Reply<seq<Blog>>)
      returns (requests: seq<AdminBlogsRequest>, alerts: seq<string>)
      modifies this
      ensures filter == old(filter) && searchTerm == old(searchTerm)
      ensures !confirmed ==> requests == [] && alerts == [] && blogs == old(blogs) && loading == old(loading)
      ensures confirmed && reply.Failed? ==>
                requests == [DeleteBlog(id)] && alerts == [DeleteFailed] && blogs == old(blogs) && loading == old(loading)
      ensures confirmed && reply.Ok? ==>
                && requests == [DeleteBlog(id), ListBlogs(AdminParams(filter, searchTerm))] && alerts == []
                && blogs == (if listReply.Ok? then listReply.data else old(blogs)) && !loading
    {
      if !confirmed {
        return [], [];
      }
      if reply.Failed? {
        return [DeleteBlog(id)], [DeleteFailed];
      }
      var fetched := FetchBlogs(listReply);
      requests := [DeleteBlog(id)] + fetched;
      alerts := [];
    }
  }

  // ---------------------------------------------------------------------
  // Properties.

  /**
   * The query narrows by status exactly for the filters other than 'all',
   * and by text exactly when one is typed; each key carries the value as is.
   */
  lemma ParamsIff(filter: string, searchTerm: string)
    ensures var q := AdminParams(filter, searchTerm);
            && (q.status.Some? <==> filter != "all")
            && (q.status.Some? ==> q.status.value == filter)
            && (q.search.Some? <==> searchTerm != "")
            && (q.search.Some? ==> q.search.value == searchTerm)
    ensures AdminParams("all", "") == AdminQuery(None, None)
  {
  }

  /**
   * The tags cell shows the first tags in order, at most two, and the "+n"
   * marker counts the rest exactly: its number reads back as the number of
   * tags not shown.
   */
  lemma TagsCellCountsAll(tags: seq<string>)
    ensures var (shown, more) := TagsShown(tags);
            && |shown| <= 2 && shown == tags[..|shown|]
            && (more.None? <==> |shown| == |tags|)
            && (more.Some? ==> more.value[0] == '+' && ParseInt(more.value[1..]) == Some(|tags| - |shown|))
  {
    if |tags| > 2 {
      var n := |tags| - 2;
      ParseIntText(n);
      assert ("+" + NatText(n))[1..] == NatText(n);
    }
  }
}

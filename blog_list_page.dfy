/**
 * The public blog list, frontend/src/pages/blogs/BlogList.js: nine posts a
 * page, narrowed by a tag and a search text, with the tag list beside them.
 * One effect on [page, selectedTag, searchTerm] refetches both the posts
 * and the tags whenever any of the three changes; the state updates of one
 * click are applied together, so one click runs the effect at most once.
 */
module BlogListPage {
  import opened Wrappers
  import opened PageKit
  import opened Blogs

  const PageSize: nat := 9

  /** The `params` object of GET /blogs. */
  datatype BlogQuery = BlogQuery(page: nat, limit: nat, tag: Option<string>, search: Option<string>)

  datatype BlogListRequest = ListBlogs(query: BlogQuery) | ListTags

  function BlogParams(page: nat, selectedTag: string, searchTerm: string): (r: BlogQuery)
    ensures r.page == page && r.limit == PageSize
    ensures r.tag.None? <==> selectedTag == ""
    ensures r.tag.Some? ==> r.tag.value == selectedTag
    ensures r.search.None? <==> searchTerm == ""
    ensures r.search.Some? ==> r.search.value == searchTerm
  {
    BlogQuery(page, PageSize,
              if selectedTag != "" then Some(selectedTag) else None,
              if searchTerm != "" then Some(searchTerm) else None)
  }

  /** The page the Previous button moves to. */
  function PreviousPage(page: nat): (r: nat)
    ensures r >= 1
    ensures page >= 2 ==> r + 1 == page
  {
    if page >= 2 then page - 1 else 1
  }

  /**
   * The pagination buttons are rendered only beside a non-empty list.
   * Previous is disabled on page 1; Next is disabled once a page comes back
   * with fewer than nine posts.
   */
  predicate PreviousEnabled(page: nat, blogs: seq<Blog>) { |blogs| > 0 && page != 1 }
  predicate NextEnabled(blogs: seq<Blog>) { |blogs| >= PageSize }

  class BlogListView {
    var blogs: seq<Blog>
    var tags: seq<TagCount>
    var loading: bool
    var searchTerm: string
    var selectedTag: string
    var page: nat

    predicate Valid()
      reads this
    {
      page >= 1
    }

    constructor ()
      ensures Valid()
      ensures blogs == [] && tags == [] && loading && searchTerm == "" && selectedTag == "" && page == 1
    {
      blogs := [];
      tags := [];
      loading := true;
      searchTerm := "";
      selectedTag := "";
      page := 1;
    }

    /** `fetchBlogs` with the current state: failures are only logged; `loading` ends false either way. */
    method FetchBlogs(reply: Reply<seq<Blog>>) returns (requests: seq<BlogListRequest>)
      modifies this
      ensures requests == [ListBlogs(BlogParams(page, selectedTag, searchTerm))]
      ensures blogs == (if reply.Ok? then reply.data else old(blogs)) && !loading
      ensures tags == old(tags) && page == old(page) && selectedTag == old(selectedTag) && searchTerm == old(searchTerm)
    {
      requests := [ListBlogs(BlogParams(page, selectedTag, searchTerm))];
      if reply.Ok? {
        blogs := reply.data;
      }
      loading := false;
    }

    /** `fetchTags`: a failure keeps the old tags. */
    method FetchTags(reply: Reply<seq<TagCount>>) returns (requests: seq<BlogListRequest>)
      modifies this
      ensures requests == [ListTags]
      ensures tags == (if reply.Ok? then reply.data else old(tags))
      ensures blogs == old(blogs) && loading == old(loading)
      ensures page == old(page) && selectedTag == old(selectedTag) && searchTerm == old(searchTerm)
    {
      requests := [ListTags];
      if reply.Ok? {
        tags := reply.data;
      }
    }

    /** The effect: both lists fetched for the current state. */
    method Refresh(blogsReply: Reply<seq<Blog>>, tagsReply: Reply<seq<TagCount>>) returns (requests: seq<BlogListRequest>)
      modifies this
      ensures requests == [ListBlogs(BlogParams(page, selectedTag, searchTerm)), ListTags]
      ensures blogs == (if blogsReply.Ok? then blogsReply.data else old(blogs)) && !loading
      ensures tags == (if tagsReply.Ok? then tagsReply.data else old(tags))
      ensures page == old(page) && selectedTag == old(selectedTag) && searchTerm == old(searchTerm)
    {
      var r1 := FetchBlogs(blogsReply);
      var r2 := FetchTags(tagsReply);
      requests := r1 + r2;
    }

    /** Applies one batch of state updates, then the effect when any of its dependencies changed. */
    method Update(newPage: nat, newTag: string, newSearch: string,
                  blogsReply: Reply<seq<Blog>>, tagsReply: Reply<seq<TagCount>>) returns (requests: seq<BlogListRequest>)
      requires newPage >= 1
      modifies this
      ensures Valid()
      ensures page == newPage && selectedTag == newTag && searchTerm == newSearch
      ensures (newPage, newTag, newSearch) != old((page, selectedTag, searchTerm)) ==>
                && requests == [ListBlogs(BlogParams(newPage, newTag, newSearch)), ListTags]
                && blogs == (if blogsReply.Ok? then blogsReply.data else old(blogs)) && !loading
                && tags == (if tagsReply.Ok? then tagsReply.data else old(tags))
      ensures (newPage, newTag, newSearch) == old((page, selectedTag, searchTerm)) ==>
                requests == [] && blogs == old(blogs) && tags == old(tags) && loading == old(loading)
    {
      var changed := (newPage, newTag, newSearch) != (page, selectedTag, searchTerm);
      page, selectedTag, searchTerm := newPage, newTag, newSearch;
      if changed {
        requests := Refresh(blogsReply, tagsReply);
      } else {
        requests := [];
      }
    }

    /** Mounting runs the effect once with the initial state. */
    method Mount(blogsReply: Reply<seq<Blog>>, tagsReply: Reply<seq<TagCount>>) returns (requests: seq<BlogListRequest>)
      modifies this
      ensures requests == [ListBlogs(BlogParams(page, selectedTag, searchTerm)), ListTags]
      ensures blogs == (if blogsReply.Ok? then blogsReply.data else old(blogs)) && !loading
      ensures tags == (if tagsReply.Ok? then tagsReply.data else old(tags))
      ensures page == old(page) && selectedTag == old(selectedTag) && searchTerm == old(searchTerm)
    {
      requests := Refresh(blogsReply, tagsReply);
    }

    /** The search field's `onChange`. */
    method SetSearchTerm(text: string, blogsReply: Reply<seq<Blog>>, tagsReply: Reply<seq<TagCount>>) returns (requests: seq<BlogListRequest>)
      requires Valid()
      modifies this
      ensures Valid() && searchTerm == text && page == old(page) && selectedTag == old(selectedTag)
      ensures text != old(searchTerm) ==>
                && requests == [ListBlogs(BlogParams(page, selectedTag, text)), ListTags]
                && blogs == (if blogsReply.Ok? then blogsReply.data else old(blogs)) && !loading
                && tags == (if tagsReply.Ok? then tagsReply.data else old(tags))
      ensures text == old(searchTerm) ==> requests == [] && blogs == old(blogs) && tags == old(tags) && loading == old(loading)
    {
      requests := Update(page, selectedTag, text, blogsReply, tagsReply);
    }

    /** A tag button: that tag, back to page 1. */
    method SelectTag(name: string, blogsReply: Reply<seq<Blog>>, tagsReply: Reply<seq<TagCount>>) returns (requests: seq<BlogListRequest>)
      modifies this
      ensures Valid() && selectedTag == name && page == 1 && searchTerm == old(searchTerm)
      ensures (name, 1) != old((selectedTag, page)) ==>
                && requests == [ListBlogs(BlogParams(1, name, searchTerm)), ListTags]
                && blogs == (if blogsReply.Ok? then blogsReply.data else old(blogs)) && !loading
                && tags == (if tagsReply.Ok? then tagsReply.data else old(tags))
      ensures (name, 1) == old((selectedTag, page)) ==> requests == [] && blogs == old(blogs) && tags == old(tags) && loading == old(loading)
    {
      requests := Update(1, name, searchTerm, blogsReply, tagsReply);
    }

    /** The "All Tags" button: no tag, back to page 1. */
    method AllTags(blogsReply: Reply<seq<Blog>>, tagsReply: Reply<seq<TagCount>>) returns (requests: seq<BlogListRequest>)
      modifies this
      ensures Valid() && selectedTag == "" && page == 1 && searchTerm == old(searchTerm)
      ensures ("", 1) != old((selectedTag, page)) ==>
                && requests == [ListBlogs(BlogParams(1, "", searchTerm)), ListTags]
                && blogs == (if blogsReply.Ok? then blogsReply.data else old(blogs)) && !loading
                && tags == (if tagsReply.Ok? then tagsReply.data else old(tags))
      ensures ("", 1) == old((selectedTag, page)) ==> requests == [] && blogs == old(blogs) && tags == old(tags) && loading == old(loading)
    {
      requests := Update(1, "", searchTerm, blogsReply, tagsReply);
    }

    /**
     * The Previous button. It is rendered only beside a non-empty list and
     * is disabled on page 1; a click that cannot happen does nothing.
     */
    method Previous(blogsReply: Reply<seq<Blog>>, tagsReply: Reply<seq<TagCount>>) returns (requests: seq<BlogListRequest>)
      requires Valid()
      modifies this
      ensures Valid() && selectedTag == old(selectedTag) && searchTerm == old(searchTerm)
      ensures PreviousEnabled(old(page), old(blogs)) ==>
                && page == old(page) - 1
                && requests == [ListBlogs(BlogParams(page, selectedTag, searchTerm)), ListTags]
                && blogs == (if blogsReply.Ok? then blogsReply.data else old(blogs)) && !loading
                && tags == (if tagsReply.Ok? then tagsReply.data else old(tags))
      ensures !PreviousEnabled(old(page), old(blogs)) ==>
                page == old(page) && requests == [] && blogs == old(blogs) && tags == old(tags) && loading == old(loading)
    {
      if !PreviousEnabled(page, blogs) {
        return [];
      }
      requests := Update(PreviousPage(page), selectedTag, searchTerm, blogsReply, tagsReply);
    }

    /**
     * The Next button. It is disabled after a page of fewer than nine posts
     * (so also whenever the list, and with it the button, is not shown).
     */
    method Next(blogsReply: Reply<seq<Blog>>, tagsReply: Reply<seq<TagCount>>) returns (requests: seq<BlogListRequest>)
      requires Valid()
      modifies this
      ensures Valid() && selectedTag == old(selectedTag) && searchTerm == old(searchTerm)
      ensures NextEnabled(old(blogs)) ==>
                && page == old(page) + 1
                && requests == [ListBlogs(BlogParams(page, selectedTag, searchTerm)), ListTags]
                && blogs == (if blogsReply.Ok? then blogsReply.data else old(blogs)) && !loading
                && tags == (if tagsReply.Ok? then tagsReply.data else old(tags))
      ensures !NextEnabled(old(blogs)) ==>
                page == old(page) && requests == [] && blogs == old(blogs) && tags == old(tags) && loading == old(loading)
    {
      if !NextEnabled(blogs) {
        return [];
      }
      requests := Update(page + 1, selectedTag, searchTerm, blogsReply, tagsReply);
    }

    /**
     * `handleSearch` (the form's submit): `setPage(1)` and a direct
     * `fetchBlogs()` whose closure still holds the old page. When the page
     * was not 1 the effect then fetches page 1 and the tags as well; the
     * replies are applied in the order of the requests, so the page-1 reply
     * wins when it succeeds and the stale one shows when only it succeeds.
     */
    method HandleSearch(staleReply: Reply<seq<Blog>>, blogsReply: Reply<seq<Blog>>, tagsReply: Reply<seq<TagCount>>)
      returns (requests: seq<BlogListRequest>)
      requires Valid()
      modifies this
      ensures Valid() && page == 1 && selectedTag == old(selectedTag) && searchTerm == old(searchTerm) && !loading
      ensures |requests| >= 1 && requests[0] == ListBlogs(BlogParams(old(page), selectedTag, searchTerm))
      ensures old(page) == 1 ==>
                && |requests| == 1
                && blogs == (if staleReply.Ok? then staleReply.data else old(blogs))
                && tags == old(tags)
      ensures old(page) != 1 ==>
                && requests == [requests[0], ListBlogs(BlogParams(1, selectedTag, searchTerm)), ListTags]
                && blogs == (if blogsReply.Ok? then blogsReply.data else if staleReply.Ok? then staleReply.data else old(blogs))
                && tags == (if tagsReply.Ok? then tagsReply.data else old(tags))
    {
      var before := page;
      requests := FetchBlogs(staleReply);
      var more := Update(1, selectedTag, searchTerm, blogsReply, tagsReply);
      requests := requests + more;
      assert requests[0] == ListBlogs(BlogParams(before, selectedTag, searchTerm));
    }
  }

  // ---------------------------------------------------------------------
  // Properties.

  /** Every query asks for nine posts, with the tag and the search text exactly when they are non-empty. */
  lemma ParamsIff(page: nat, selectedTag: string, searchTerm: string)
    ensures var q := BlogParams(page, selectedTag, searchTerm);
            && q.page == page && q.limit == 9
            && (q.tag.Some? <==> selectedTag != "") && (q.tag.Some? ==> q.tag.value == selectedTag)
            && (q.search.Some? <==> searchTerm != "") && (q.search.Some? ==> q.search.value == searchTerm)
  {
  }

  /** Previous never leaves page 1 behind: it steps one page back and stays at 1 or above. */
  lemma PreviousStaysPositive(page: nat)
    ensures PreviousPage(page) >= 1
    ensures page >= 2 ==> PreviousPage(page) == page - 1
    ensures page <= 1 ==> PreviousPage(page) == 1
  {
  }

  /**
   * Either button acts only beside a non-empty list, which is where the
   * pagination is rendered; Previous additionally needs a page past the first.
   */
  lemma PaginationNeedsPosts(page: nat, blogs: seq<Blog>)
    ensures PreviousEnabled(page, blogs) <==> blogs != [] && page != 1
    ensures NextEnabled(blogs) ==> blogs != []
  {
  }

  /** A full page leaves Next enabled and a short one (the last) disables it. */
  lemma NextOnFullPage(blogs: seq<Blog>)
    ensures NextEnabled(blogs) <==> |blogs| >= 9
    ensures |blogs| < 9 ==> !NextEnabled(blogs)
  {
  }
}

/**
 * One post, frontend/src/pages/blogs/BlogDetail.js: fetched by its slug,
 * followed by up to three related posts sharing its first tag, and the
 * title, description and date the page shows for it.
 */
module BlogDetailPage {
  import opened Wrappers
  import opened PageKit
  import opened Blogs
  import TrafficStats

  datatype BlogDetailRequest = GetBlog(slug: string) | ListRelated(tag: string, limit: nat)

  const RelatedLimit: nat := 3

  /** `filter(b => b.slug !== slug)`. */
  function OtherPosts(posts: seq<Blog>, slug: string): (r: seq<Blog>)
    ensures |r| <= |posts|
    ensures forall b :: b in r <==> b in posts && b.slug != slug
  {
    if posts == [] then []
    else
      var rest := OtherPosts(posts[1..], slug);
      assert forall b :: b in posts <==> b == posts[0] || b in posts[1..];
      if posts[0].slug != slug then [posts[0]] + rest else rest
  }

  /** The related posts: the first three of the tag's posts other than this one. */
  function RelatedBlogs(posts: seq<Blog>, slug: string): (r: seq<Blog>)
    ensures |r| <= RelatedLimit
    ensures forall b :: b in r ==> b in posts && b.slug != slug
  {
    TrafficStats.Take(OtherPosts(posts, slug), RelatedLimit)
  }

  /** `blog.seo_title || blog.title`. */
  function MetaTitle(blog: Blog): (r: string)
    ensures Truthy(blog.seoTitle) ==> r == blog.seoTitle.value
    ensures !Truthy(blog.seoTitle) ==> r == blog.title
  {
    if Truthy(blog.seoTitle) then blog.seoTitle.value else blog.title
  }

  /** `blog.seo_description || blog.excerpt`. */
  function MetaDescription(blog: Blog): string {
    if Truthy(blog.seoDescription) then blog.seoDescription.value else blog.excerpt
  }

  /** What the page renders. */
  datatype Screen = Loading | NotFound | Article(blog: Blog, related: seq<Blog>)

  class BlogDetailView {
    var blog: Option<Blog>
    var relatedBlogs: seq<Blog>
    var loading: bool

    constructor ()
      ensures blog == None && relatedBlogs == [] && loading
    {
      blog := None;
      relatedBlogs := [];
      loading := true;
    }

    function Render(): (s: Screen)
      reads this
      ensures s == Loading <==> loading
      ensures s == NotFound <==> !loading && blog.None?
    {
      if loading then Loading else if blog.None? then NotFound else Article(blog.value, relatedBlogs)
    }

    /**
     * `fetchBlog` for the route's slug, run on mount and on every slug
     * change. A post with tags is followed by the request for its first
     * tag; any failure is only logged and leaves the rest as it was;
     * `loading` ends false either way and is never set back to true.
     */
    method FetchBlog(slug: string, reply: Reply<Blog>, relatedReply: Reply<seq<Blog>>)
      returns (requests: seq<BlogDetailRequest>)
      modifies this
      ensures !loading
      ensures reply.Failed? ==> requests == [GetBlog(slug)] && blog == old(blog) && relatedBlogs == old(relatedBlogs)
      ensures reply.Ok? ==> blog == Some(reply.data)
      ensures reply.Ok? && reply.data.tags == [] ==> requests == [GetBlog(slug)] && relatedBlogs == old(relatedBlogs)
      ensures reply.Ok? && reply.data.tags != [] ==>
                && requests == [GetBlog(slug), ListRelated(reply.data.tags[0], RelatedLimit)]
                && relatedBlogs == (if relatedReply.Ok? then RelatedBlogs(relatedReply.data, slug) else old(relatedBlogs))
    {
      requests := [GetBlog(slug)];
      if reply.Ok? {
        blog := Some(reply.data);
        if |reply.data.tags| > 0 {
          requests := requests + [ListRelated(reply.data.tags[0], RelatedLimit)];
          if relatedReply.Ok? {
            relatedBlogs := RelatedBlogs(relatedReply.data, slug);
          }
        }
      }
      loading := false;
    }
  }

  // ---------------------------------------------------------------------
  // Properties.

  /**
   * The related posts are at most three posts of the tag's list, none of
   * them the post on screen, in the order of the list; when the list holds
   * at most three other posts, all of them are shown.
   */
  lemma RelatedExcludesSelf(posts: seq<Blog>, slug: string)
    ensures var r := RelatedBlogs(posts, slug);
            && |r| <= 3
            && (forall b :: b in r ==> b in posts && b.slug != slug)
            && r == OtherPosts(posts, slug)[..|r|]
            && (|OtherPosts(posts, slug)| <= 3 ==> forall b :: b in posts && b.slug != slug ==> b in r)
  {
    var o := OtherPosts(posts, slug);
    var r := RelatedBlogs(posts, slug);
    forall b | b in r ensures b in o {
      var i :| 0 <= i < |r| && r[i] == b;
      assert o[i] == b;
    }
  }

  /**
   * The page's title is the SEO title when one is set and the post's title
   * otherwise, so it is blank only when the post's title is; the same holds
   * for the description and the excerpt.
   */
  lemma MetaFallbacks(blog: Blog)
    ensures Some(MetaTitle(blog)) == blog.seoTitle || MetaTitle(blog) == blog.title
    ensures MetaTitle(blog) == "" ==> blog.title == ""
    ensures Some(MetaDescription(blog)) == blog.seoDescription || MetaDescription(blog) == blog.excerpt
    ensures MetaDescription(blog) == "" ==> blog.excerpt == ""
  {
  }
}

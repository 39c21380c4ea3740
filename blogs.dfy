/**
 * A blog post as the blog endpoints return it to the pages, reduced to the
 * fields the modelled pages read. The blog endpoints themselves are not
 * part of backend/server.py; dates stay the ISO strings the pages receive.
 */
module Blogs {
  import opened Wrappers

  datatype Blog = Blog(id: string, slug: string, title: string, excerpt: string,
                       status: string, tags: seq<string>, viewCount: nat,
                       seoTitle: Option<string>, seoDescription: Option<string>,
                       publishedAt: Option<string>, createdAt: string)

  /** One entry of GET /blogs/tags/all. */
  datatype TagCount = TagCount(name: string, count: nat)

  /** `blog.published_at || blog.created_at`: the date a post is shown with. */
  function ShownDate(blog: Blog): (r: string)
    ensures Truthy(blog.publishedAt) ==> r == blog.publishedAt.value
    ensures !Truthy(blog.publishedAt) ==> r == blog.createdAt
  {
    if Truthy(blog.publishedAt) then blog.publishedAt.value else blog.createdAt
  }
}

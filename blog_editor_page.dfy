/**
 * The post editor, frontend/src/pages/admin/BlogEditor.js: the form of a
 * new post, or of an existing one loaded by its id, where typing a title
 * also sets the slug and the SEO title, and saving as draft or published.
 *
 * `generateSlug` wraps the `slugify` package, which is not part of this
 * model: it is a parameter of the title handler.
 */
module BlogEditorPage {
  import opened Wrappers
  import opened PageKit

  datatype BlogForm = BlogForm(title: string, slug: string, content: string, excerpt: string,
                               featuredImage: string, status: string, seoTitle: string,
                               seoDescription: string, seoKeywords: seq<string>, tags: seq<string>)

  const InitialForm: BlogForm := BlogForm("", "", "", "", "", "draft", "", "", [], [])

  /** The edits of the form other than the title, each from its own input. */
  datatype Edit =
    | Content(text: string) | Excerpt(text: string) | FeaturedImage(text: string)
    | SeoTitle(text: string) | SeoDescription(text: string) | Slug(text: string)
    | Tags(list: seq<string>) | SeoKeywords(list: seq<string>)

  function ApplyEdit(form: BlogForm, e: Edit): (r: BlogForm)
    ensures r.title == form.title && r.status == form.status
  {
    match e
    case Content(t) => form.(content := t)
    case Excerpt(t) => form.(excerpt := t)
    case FeaturedImage(t) => form.(featuredImage := t)
    case SeoTitle(t) => form.(seoTitle := t)
    case SeoDescription(t) => form.(seoDescription := t)
    case Slug(t) => form.(slug := t)
    case Tags(l) => form.(tags := l)
    case SeoKeywords(l) => form.(seoKeywords := l)
  }

  /** `handleTitleChange`: the title, the slug generated from it and the SEO title, all at once. */
  function TitleChange(form: BlogForm, title: string, generateSlug: string -> string): (r: BlogForm)
    ensures r.title == title && r.seoTitle == title && r.slug == generateSlug(title)
    ensures r.(title := form.title, slug := form.slug, seoTitle := form.seoTitle) == form
  {
    form.(title := title, slug := generateSlug(title), seoTitle := title)
  }

  const MissingFields: string := "Please fill in title, content, and excerpt"

  /** The guard of `handleSave`: an empty title, content or excerpt stops the save. */
  function SaveError(form: BlogForm): (r: Option<string>)
    ensures r.None? <==> form.title != "" && form.content != "" && form.excerpt != ""
  {
    if form.title == "" || form.content == "" || form.excerpt == "" then Some(MissingFields) else None
  }

  /** `dataToSend`: the form with the chosen status, and a publication time only when publishing. */
  datatype Payload = Payload(form: BlogForm, publishedAt: Option<string>)

  function SavePayload(form: BlogForm, status: string, now: string): (r: Payload)
    ensures r.form.status == status && r.form.(status := form.status) == form
    ensures r.publishedAt.Some? <==> status == "published"
  {
    Payload(form.(status := status), if status == "published" then Some(now) else None)
  }

  datatype EditorRequest = GetBlog(id: string) | UpdateBlog(id: string, payload: Payload) | CreateBlog(payload: Payload)

  /** PUT for an existing post (the route has an id), POST for a new one. */
  function SaveRequest(id: Option<string>, payload: Payload): (r: EditorRequest)
    ensures !r.GetBlog? && r.payload == payload
    ensures r.UpdateBlog? <==> Truthy(id)
  {
    if Truthy(id) then UpdateBlog(id.value, payload) else CreateBlog(payload)
  }

  function SavedMessage(status: string): string {
    "Blog " + (if status == "published" then "published" else "saved") + " successfully!"
  }

  class BlogEditorView {
    /** The `id` route parameter: present when editing an existing post. */
    const id: Option<string>
    var form: BlogForm
    var loading: bool
    var saving: bool

    constructor (routeId: Option<string>)
      ensures id == routeId && form == InitialForm && !loading && !saving
    {
      id := routeId;
      form := InitialForm;
      loading := false;
      saving := false;
    }

    predicate IsEdit()
      reads this
    {
      Truthy(id)
    }

    /** `fetchBlog`: the loaded post replaces the whole form; a failure raises an alert. */
    method FetchBlog(reply: Reply<BlogForm>) returns (requests: seq<EditorRequest>, alerts: seq<string>)
      requires IsEdit()
      modifies this
      ensures requests == [GetBlog(id.value)]
      ensures form == (if reply.Ok? then reply.data else old(form))
      ensures alerts == if reply.Ok? then [] else ["Failed to load blog"]
      ensures !loading && saving == old(saving)
    {
      loading := true;
      requests := [GetBlog(id.value)];
      if reply.Ok? {
        form := reply.data;
        alerts := [];
      } else {
        alerts := ["Failed to load blog"];
      }
      loading := false;
    }

    /** The effect on [id]: an existing post is loaded, a new one starts from the initial form. */
    method Mount(reply: Reply<BlogForm>) returns (requests: seq<EditorRequest>, alerts: seq<string>)
      modifies this
      ensures IsEdit() ==> requests == [GetBlog(id.value)] && form == (if reply.Ok? then reply.data else old(form))
      ensures IsEdit() ==> !loading && alerts == (if reply.Ok? then [] else ["Failed to load blog"])
      ensures !IsEdit() ==> requests == [] && alerts == [] && form == old(form) && loading == old(loading)
      ensures saving == old(saving)
    {
      if Truthy(id) {
        requests, alerts := FetchBlog(reply);
      } else {
        requests, alerts := [], [];
      }
    }

    method HandleTitleChange(title: string, generateSlug: string -> string)
      modifies this
      ensures form == TitleChange(old(form), title, generateSlug)
      ensures loading == old(loading) && saving == old(saving)
    {
      form := form.(title := title, slug := generateSlug(title), seoTitle := title);
    }

    method HandleEdit(e: Edit)
      modifies this
      ensures form == ApplyEdit(old(form), e)
      ensures loading == old(loading) && saving == old(saving)
    {
      form := ApplyEdit(form, e);
    }

    /**
     * `handleSave(status)`: the guard, then one PUT or POST of the payload;
     * success raises the saved alert and returns to the list, failure only
     * an alert. The form is not changed; `saving` ends false.
     */
    method HandleSave(status: string, now: string, reply: Reply<()>)
      returns (requests: seq<EditorRequest>, alerts: seq<string>, navigateTo: Option<string>)
      modifies this
      ensures form == old(form) && loading == old(loading)
      ensures SaveError(form).Some? ==>
                requests == [] && alerts == [MissingFields] && navigateTo == None && saving == old(saving)
      ensures SaveError(form).None? ==> requests == [SaveRequest(id, SavePayload(form, status, now))] && !saving
      ensures SaveError(form).None? && reply.Ok? ==> alerts == [SavedMessage(status)] && navigateTo == Some("/admin/blogs")
      ensures SaveError(form).None? && reply.Failed? ==> alerts == ["Failed to save blog"] && navigateTo == None
    {
      if form.title == "" || form.content == "" || form.excerpt == "" {
        return [], [MissingFields], None;
      }
      saving := true;
      var payload := Payload(form.(status := status), if status == "published" then Some(now) else None);
      requests := [if Truthy(id) then UpdateBlog(id.value, payload) else CreateBlog(payload)];
      if reply.Ok? {
        alerts := [SavedMessage(status)];
        navigateTo := Some("/admin/blogs");
      } else {
        alerts := ["Failed to save blog"];
        navigateTo := None;
      }
      saving := false;
    }
  }

  // ---------------------------------------------------------------------
  // Properties.

  /**
   * Typing a title sets the slug to the title's generated slug and the SEO
   * title to the title, and nothing else; a slug typed by hand is lost at
   * the next change of the title.
   */
  lemma TitleDrivesSlug(form: BlogForm, slug: string, title: string, generateSlug: string -> string)
    ensures var f := TitleChange(form, title, generateSlug);
            && f.title == title && f.slug == generateSlug(title) && f.seoTitle == title
            && f.(title := form.title, slug := form.slug, seoTitle := form.seoTitle) == form
    ensures TitleChange(ApplyEdit(form, Slug(slug)), title, generateSlug).slug == generateSlug(title)
  {
  }

  /** Each edit changes its own field and leaves the other nine as they were. */
  lemma EditTouchesOneField(form: BlogForm, e: Edit)
    ensures var f := ApplyEdit(form, e);
            && f.title == form.title && f.status == form.status
            && (f.content != form.content ==> e.Content?)
            && (f.excerpt != form.excerpt ==> e.Excerpt?)
            && (f.slug != form.slug ==> e.Slug?)
            && (f.seoTitle != form.seoTitle ==> e.SeoTitle?)
            && (f.tags != form.tags ==> e.Tags?)
  {
  }

  /**
   * A post is saved exactly when its title, content and excerpt are all
   * non-empty; a title of spaces counts as filled in.
   */
  lemma SaveGuardIff(form: BlogForm)
    ensures SaveError(form).None? <==> form.title != "" && form.content != "" && form.excerpt != ""
    ensures form.content != "" && form.excerpt != "" ==> SaveError(form.(title := " ")).None?
  {
  }

  /**
   * The payload carries the chosen status and the form's other fields
   * unchanged; it has a publication time exactly when the status is
   * 'published', and a draft is sent with none, even when the post was
   * published before.
   */
  lemma PayloadIff(form: BlogForm, status: string, now: string)
    ensures var p := SavePayload(form, status, now);
            && p.form.status == status && p.form.(status := form.status) == form
            && (p.publishedAt.Some? <==> status == "published")
            && (p.publishedAt.Some? ==> p.publishedAt.value == now)
  {
  }

  /** An existing post is updated under its own id; a new one is created. */
  lemma SaveTargets(id: Option<string>, payload: Payload)
    ensures SaveRequest(id, payload).UpdateBlog? <==> Truthy(id)
    ensures SaveRequest(id, payload).UpdateBlog? ==> SaveRequest(id, payload) == UpdateBlog(id.value, payload)
    ensures SaveRequest(id, payload).CreateBlog? ==> SaveRequest(id, payload).payload == payload
  {
  }
}

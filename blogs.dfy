/** Blog posts, with create, list, get, update and delete handlers. The schema restricts the
    content type to article/news/story/tutorial and the publication status to draft/published
    (default draft); the image defaults to null and the tags to the empty list. There is no
    approval field. */
module Blogs {
  import opened Common

  datatype Blog = Blog(
    title: string,
    contentType: string,
    category: string,
    publicationStatus: string,
    content: string,
    authorName: string,
    authorPosition: string,
    readTime: string,
    image: Option<string>,
    tags: seq<string>)

  /** The body of the create and update handlers; `tags` is `None` when undefined or null. */
  datatype BlogInput = BlogInput(
    title: Option<string>,
    contentType: Option<string>,
    category: Option<string>,
    publicationStatus: Option<string>,
    content: Option<string>,
    authorName: Option<string>,
    authorPosition: Option<string>,
    readTime: Option<string>,
    image: Option<string>,
    tags: Option<seq<string>>)

  /** The list handler's query string. */
  datatype BlogQuery = BlogQuery(status: Option<string>, category: Option<string>)

  const ContentTypes: set<string> := {"article", "news", "story", "tutorial"}
  const PublicationStatuses: set<string> := {"draft", "published"}

  /** The create handler's first check: the seven required fields are truthy. */
  predicate RequiredGiven(req: BlogInput)
  {
    && Present(req.title) && Present(req.contentType) && Present(req.category) && Present(req.content)
    && Present(req.authorName) && Present(req.authorPosition) && Present(req.readTime)
  }

  /** What the schema accepts: the required strings non-empty and both enums respected. */
  predicate Saveable(b: Blog)
  {
    && b.title != "" && b.category != "" && b.content != ""
    && b.authorName != "" && b.authorPosition != "" && b.readTime != ""
    && b.contentType in ContentTypes && b.publicationStatus in PublicationStatuses
  }

  /** `image?.trim() || fallback`. */
  function ImageOr(image: Option<string>, fallback: Option<string>): (r: Option<string>)
    ensures image.None? || Blank(image.value) ==> r == fallback
    ensures image.Some? && !Blank(image.value) ==> r == Some(Trim(image.value))
  {
    if image.Some? && Trim(image.value) != "" then Some(Trim(image.value)) else fallback
  }

  /** `s || fallback` for a string taken as sent. */
  function RawOr(s: Option<string>, fallback: string): (r: string)
    ensures Present(s) ==> r == s.value
    ensures !Present(s) ==> r == fallback
  {
    if Present(s) then s.value else fallback
  }

  /** The create handler's record: required texts trimmed, status as sent or 'draft', a blank
      or absent image null, absent tags empty. */
  function NewBlog(req: BlogInput): (b: Blog)
    requires RequiredGiven(req)
    ensures b.publicationStatus == RawOr(req.publicationStatus, "draft")
    ensures b.image == ImageOr(req.image, None)
    ensures b.tags == (if req.tags.Some? then req.tags.value else [])
    ensures b.title == Trim(req.title.value) && b.content == Trim(req.content.value)
  {
    Blog(
      Trim(req.title.value), Trim(req.contentType.value), Trim(req.category.value),
      RawOr(req.publicationStatus, "draft"),
      Trim(req.content.value), Trim(req.authorName.value), Trim(req.authorPosition.value), Trim(req.readTime.value),
      ImageOr(req.image, None),
      if req.tags.Some? then req.tags.value else [])
  }

  /** The update handler's record: each text kept when absent, empty or whitespace-only and
      stored trimmed otherwise (the status as sent), tags replaced whenever a list is sent. */
  function PatchedBlog(b: Blog, req: BlogInput): (r: Blog)
    ensures r.title == KeepOr(req.title, b.title) && r.contentType == KeepOr(req.contentType, b.contentType)
    ensures r.category == KeepOr(req.category, b.category) && r.content == KeepOr(req.content, b.content)
    ensures r.authorName == KeepOr(req.authorName, b.authorName)
    ensures r.authorPosition == KeepOr(req.authorPosition, b.authorPosition)
    ensures r.readTime == KeepOr(req.readTime, b.readTime)
    ensures r.publicationStatus == RawOr(req.publicationStatus, b.publicationStatus)
    ensures r.image == ImageOr(req.image, b.image)
    ensures req.tags.Some? ==> r.tags == req.tags.value
    ensures req.tags.None? ==> r.tags == b.tags
  {
    Blog(
      KeepOr(req.title, b.title), KeepOr(req.contentType, b.contentType), KeepOr(req.category, b.category),
      RawOr(req.publicationStatus, b.publicationStatus),
      KeepOr(req.content, b.content), KeepOr(req.authorName, b.authorName),
      KeepOr(req.authorPosition, b.authorPosition), KeepOr(req.readTime, b.readTime),
      ImageOr(req.image, b.image),
      if req.tags.Some? then req.tags.value else b.tags)
  }

  /** A patch that supplies nothing leaves a blog as it is. */
  lemma {:induction false} EmptyPatchIsIdentity(b: Blog)
    ensures PatchedBlog(b, BlogInput(None, None, None, None, None, None, None, None, None, None)) == b
  {
  }

  /** The blogs the list handler returns for this query: a truthy status selects on the
      publication status and a truthy category on the category, both exactly. */
  predicate Listed(b: Blog, q: BlogQuery)
  {
    && (!Present(q.status) || b.publicationStatus == q.status.value)
    && (!Present(q.category) || b.category == q.category.value)
  }

  /** Ids are below the allocation counter and every stored blog is one the schema accepts. */
  ghost predicate Consistent(rows: map<Id, Blog>, nextId: Id)
  {
    forall k :: k in rows ==> k < nextId && Saveable(rows[k])
  }

  lemma SaveKeepsConsistent(rows: map<Id, Blog>, nextId: Id, id: Id, b: Blog)
    requires Consistent(rows, nextId) && id < nextId && Saveable(b)
    ensures Consistent(rows[id := b], nextId)
  {
  }

  class BlogTable {
    var rows: map<Id, Blog>
    var nextId: Id

    ghost predicate Valid()
      reads this
    {
      Consistent(rows, nextId)
    }

    constructor ()
      ensures Valid() && rows == map[] && nextId == 0
    {
      rows := map[];
      nextId := 0;
    }

    /** createBlog. Error precedence: 400 unless the seven required fields are given, 500 when
        the store's validation rejects the record (an enum violated, or a required field blank
        after trimming); otherwise one new blog. */
    method Create(req: BlogInput) returns (reply: Reply<Id>)
      requires Valid()
      modifies this
      ensures Valid()
      ensures !RequiredGiven(req) ==> reply == Fail(400, "All required fields must be provided")
      ensures RequiredGiven(req) && !Saveable(NewBlog(req)) ==> reply == Fail(500, "Server error while creating blog")
      ensures reply.Done? <==> RequiredGiven(req) && Saveable(NewBlog(req))
      ensures reply.Done? ==>
              && reply.code == 201 && reply.message == "Blog created successfully"
              && reply.value == old(nextId) && reply.value !in old(rows)
              && rows == old(rows)[reply.value := NewBlog(req)]
      ensures reply.Fail? ==> rows == old(rows) && nextId == old(nextId)
    {
      if !RequiredGiven(req) {
        return Fail(400, "All required fields must be provided");
      }
      var blog := NewBlog(req);
      if !Saveable(blog) {
        return Fail(500, "Server error while creating blog");
      }
      var id := nextId;
      SaveKeepsConsistent(rows, nextId + 1, id, blog);
      rows := rows[id := blog];
      nextId := nextId + 1;
      reply := Done(201, "Blog created successfully", id);
    }

    /** getAllBlogs, without the full-text search: `total` is the number of blogs returned. */
    method List(query: BlogQuery) returns (blogs: map<Id, Blog>, total: nat)
      ensures total == |blogs|
      ensures blogs.Keys <= rows.Keys
      ensures forall k :: k in blogs ==> blogs[k] == rows[k]
      ensures forall k :: k in rows ==> (k in blogs <==> Listed(rows[k], query))
    {
      var status: Option<string> := None;
      var category: Option<string> := None;
      if Present(query.status) {
        status := query.status;
      }
      if Present(query.category) {
        category := query.category;
      }
      blogs := map k | k in rows && Listed(rows[k], BlogQuery(status, category)) :: rows[k];
      total := |blogs|;
    }

    /** getBlogById. */
    method Get(id: Id) returns (reply: Reply<Blog>)
      ensures reply.Done? <==> id in rows
      ensures id in rows ==> reply == Done(200, "Blog fetched successfully", rows[id])
      ensures id !in rows ==> reply == Fail(404, "Blog not found")
    {
      if id !in rows {
        return Fail(404, "Blog not found");
      }
      reply := Done(200, "Blog fetched successfully", rows[id]);
    }

    /** updateBlogById. Error precedence: 404 for an unknown id, 500 when the store's validation
        rejects the record (an enum violated); otherwise the ten fields are assigned one by one. */
    method Update(id: Id, req: BlogInput) returns (reply: Reply<Blog>)
      requires Valid()
      modifies this
      ensures Valid()
      ensures nextId == old(nextId)
      ensures id !in old(rows) ==> reply == Fail(404, "Blog not found")
      ensures id in old(rows) && !Saveable(PatchedBlog(old(rows)[id], req))
              ==> reply == Fail(500, "Server error while updating blog")
      ensures reply.Done? <==> id in old(rows) && Saveable(PatchedBlog(old(rows)[id], req))
      ensures reply.Done? ==>
              && reply == Done(200, "Blog updated successfully", PatchedBlog(old(rows)[id], req))
              && rows == old(rows)[id := reply.value]
      ensures reply.Fail? ==> rows == old(rows)
    {
      if id !in rows {
        return Fail(404, "Blog not found");
      }
      var blog := rows[id];
      blog := blog.(title := KeepOr(req.title, blog.title));
      blog := blog.(contentType := KeepOr(req.contentType, blog.contentType));
      blog := blog.(category := KeepOr(req.category, blog.category));
      if Present(req.publicationStatus) {
        blog := blog.(publicationStatus := req.publicationStatus.value);
      }
      blog := blog.(content := KeepOr(req.content, blog.content));
      blog := blog.(authorName := KeepOr(req.authorName, blog.authorName));
      blog := blog.(authorPosition := KeepOr(req.authorPosition, blog.authorPosition));
      blog := blog.(readTime := KeepOr(req.readTime, blog.readTime));
      blog := blog.(image := ImageOr(req.image, blog.image));
      if req.tags.Some? {
        blog := blog.(tags := req.tags.value);
      }
      if !Saveable(blog) {
        return Fail(500, "Server error while updating blog");
      }
      SaveKeepsConsistent(rows, nextId, id, blog);
      rows := rows[id := blog];
      reply := Done(200, "Blog updated successfully", blog);
    }

    /** deleteBlogById. */
    method Delete(id: Id) returns (reply: Reply<()>)
      requires Valid()
      modifies this
      ensures Valid()
      ensures nextId == old(nextId)
      ensures id !in old(rows) ==> reply == Fail(404, "Blog not found") && rows == old(rows)
      ensures id in old(rows) ==> reply == Done(200, "Blog deleted successfully", ()) && rows == old(rows) - {id}
    {
      if id !in rows {
        return Fail(404, "Blog not found");
      }
      rows := rows - {id};
      reply := Done(200, "Blog deleted successfully", ());
    }
  }
}

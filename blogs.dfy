/** The blog handlers of Backend/controllers/blogController.js: creation
    with the author forced to the requester, the author-or-admin rule of
    update and delete, and comment appends. */
module Blogs {
  import opened Common
  import opened Store
  import opened Strings
  import opened Validation

  /** The blog `createBlog` stores: the validated fields with `title` as the
      route's `trim()` left it, the requester as author whatever the body
      names, no comments yet. */
  function NewBlog(who: Principal, b: BlogBody, isUrl: string -> bool): (r: Blog)
    requires BlogValid(b, isUrl)
    ensures r.author == who.id && r.comments == [] && r.updatedAt.None?
    ensures b.title.Some? && r.title == Trim(b.title.value)
    ensures b.content.Some? && r.content == b.content.value
    ensures b.featuredImage.Some? && r.featuredImage == b.featuredImage.value && isUrl(r.featuredImage)
    ensures b.tags.Some? && r.tags == b.tags.value
  {
    BlogValidIff(b, isUrl);
    Blog(who.id, Trim(b.title.value), b.content.value, b.featuredImage.value, b.tags.value, [], None)
  }

  /** `createBlog`: 400 on a rule failure, with nothing stored. */
  method CreateBlog(db: Database, who: Principal, body: BlogBody, isUrl: string -> bool)
    returns (status: Status, blog: Option<Id>)
    requires db.Valid()
    modifies db`blogs, db`nextId
    ensures db.Valid()
    ensures !BlogValid(body, isUrl) ==> status == BadRequest && blog.None? && db.blogs == old(db.blogs)
    ensures BlogValid(body, isUrl) ==>
      && status == Created && blog.Some? && blog.value !in old(db.blogs)
      && db.blogs == old(db.blogs)[blog.value := NewBlog(who, body, isUrl)]
  {
    if !BlogValid(body, isUrl) {
      return BadRequest, None;
    }
    var id := db.NewId();
    db.blogs := db.blogs[id := NewBlog(who, body, isUrl)];
    status, blog := Created, Some(id);
  }

  /** The blog after `updateBlog` at time `now`: every sent field is written,
      `author` included, `title` as trimmed by the route, and `updatedAt` is
      set. The rules' verdict is never consulted by this handler. */
  function PatchedBlog(bl: Blog, b: BlogBody, now: int): Blog {
    bl.(author := b.author.GetOr(bl.author),
        title := TrimField(b.title).GetOr(bl.title),
        content := b.content.GetOr(bl.content),
        featuredImage := b.featuredImage.GetOr(bl.featuredImage),
        tags := b.tags.GetOr(bl.tags),
        updatedAt := Some(now))
  }

  /** An update stamps the time and, among the fields a body can name here,
      keeps the comments; a sent title is stored trimmed; a body that sends an
      author hands the blog to that author; an empty body changes only the stamp. */
  lemma PatchedBlogFields(bl: Blog, b: BlogBody, now: int)
    ensures PatchedBlog(bl, b, now).updatedAt == Some(now)
    ensures PatchedBlog(bl, b, now).comments == bl.comments
    ensures b.title.Some? ==> PatchedBlog(bl, b, now).title == Trim(b.title.value)
    ensures b.author.Some? ==> PatchedBlog(bl, b, now).author == b.author.value
    ensures b == BlogBody(None, None, None, None, None) ==> PatchedBlog(bl, b, now) == bl.(updatedAt := Some(now))
  {
  }

  /** `updateBlog`; `now` is `Date.now()`. */
  method UpdateBlog(db: Database, who: Principal, id: Id, body: BlogBody, now: int) returns (status: Status)
    requires db.Valid()
    modifies db`blogs
    ensures db.Valid()
    ensures id !in old(db.blogs) ==> status == NotFound && db.blogs == old(db.blogs)
    ensures id in old(db.blogs) && !MayModify(old(db.blogs)[id].author, who) ==>
      status == Forbidden && db.blogs == old(db.blogs)
    ensures id in old(db.blogs) && MayModify(old(db.blogs)[id].author, who) ==>
      status == Ok && db.blogs == old(db.blogs)[id := PatchedBlog(old(db.blogs)[id], body, now)]
  {
    if id !in db.blogs {
      return NotFound;
    }
    if !MayModify(db.blogs[id].author, who) {
      return Forbidden;
    }
    db.blogs := db.blogs[id := PatchedBlog(db.blogs[id], body, now)];
    status := Ok;
  }

  /** `deleteBlog`: the same 404 and 403 rule; otherwise only that blog goes. */
  method DeleteBlog(db: Database, who: Principal, id: Id) returns (status: Status)
    requires db.Valid()
    modifies db`blogs
    ensures db.Valid()
    ensures id !in old(db.blogs) ==> status == NotFound && db.blogs == old(db.blogs)
    ensures id in old(db.blogs) && !MayModify(old(db.blogs)[id].author, who) ==>
      status == Forbidden && db.blogs == old(db.blogs)
    ensures id in old(db.blogs) && MayModify(old(db.blogs)[id].author, who) ==>
      status == Ok && db.blogs == old(db.blogs) - {id}
  {
    if id !in db.blogs {
      return NotFound;
    }
    if !MayModify(db.blogs[id].author, who) {
      return Forbidden;
    }
    db.blogs := db.blogs - {id};
    status := Ok;
  }

  /** `addComment`: any authenticated user may comment; `content` is "" when
      the body has none, and is stored as the route's `trim()` left it (the
      route's `notEmpty()` verdict is not consulted). Only the comment list
      changes, by one entry at its end. */
  method AddComment(db: Database, who: Principal, id: Id, content: string) returns (status: Status)
    requires db.Valid()
    modifies db`blogs
    ensures db.Valid()
    ensures id !in old(db.blogs) ==> status == NotFound && db.blogs == old(db.blogs)
    ensures id in old(db.blogs) ==>
      && status == Ok
      && db.blogs == old(db.blogs)[id := old(db.blogs)[id].(comments := old(db.blogs)[id].comments + [Comment(who.id, Trim(content))])]
  {
    if id !in db.blogs {
      return NotFound;
    }
    var bl := db.blogs[id];
    db.blogs := db.blogs[id := bl.(comments := bl.comments + [Comment(who.id, Trim(content))])];
    status := Ok;
  }
}

/**
 * The blog post router: the input schemas of `createBlogPost`, `deleteBlogPost`
 * and `updateBlogPost`, and the three admin-only mutations on the post table.
 *
 * Every call runs in the router's fixed order: the input is validated first
 * (a failed schema never reaches the handler), then the caller's role is
 * checked, then -- for delete and update -- the target id is looked up, and
 * only then is exactly one row created, removed or overwritten.
 */
module BlogPost {
  import opened Wrappers

  // Length bounds of the title and body schemas; zod's `.min` and `.max` are
  // both inclusive, although the messages say "less than".
  const MinTitleLength := 5
  const MaxTitleLength := 255
  const MinBodyLength := 5
  const MaxBodyLength := 2000

  /** `addHours(d, 4)`: four hours, in milliseconds of a JavaScript `Date`. */
  const FourHours := 4 * 60 * 60 * 1000

  /** A row of the post table; `postDate` is a timestamp in milliseconds. */
  datatype Post = Post(id: int, title: string, body: string, postDate: int, imageUrl: Option<string>)

  /** The fields a caller supplies to create a post, or to overwrite one. */
  datatype PostFields = PostFields(title: string, body: string, postDate: int, imageUrl: Option<string>)

  /** One failed schema check; zod reports every failed check of the object. */
  datatype Issue =
    | TitleTooShort
    | TitleTooLong
    | BodyTooShort
    | BodyTooLong
    | DateInFuture
    | ImageUrlInvalid
  {
    /** The field-level message shown for this check. */
    function Message(): string {
      match this
      case TitleTooShort => "Title must be atleast 5 characters long."
      case TitleTooLong => "Title must be less than 255 characters long."
      case BodyTooShort => "Body must be atleast 5 characters long."
      case BodyTooLong => "Body must be less than 2000 characters long."
      case DateInFuture => "Date cannot be in the future."
      case ImageUrlInvalid => "Image URL must be a valid URL."
    }
  }

  /** Two characters that tell the messages apart: the first, and the fifteenth. */
  function MessageKey(i: Issue): (char, char) {
    match i
    case TitleTooShort => ('T', 'a')
    case TitleTooLong => ('T', 'l')
    case BodyTooShort => ('B', 't')
    case BodyTooLong => ('B', 'e')
    case DateInFuture => ('D', ' ')
    case ImageUrlInvalid => ('I', ' ')
  }

  lemma MessageHasKey(i: Issue)
    ensures |i.Message()| > 14 && (i.Message()[0], i.Message()[14]) == MessageKey(i)
  {
    var m := i.Message();
    match i
    case TitleTooShort => assert m == "Title must be atleast 5 characters long.";
    case TitleTooLong => assert m == "Title must be less than 255 characters long.";
    case BodyTooShort => assert m == "Body must be atleast 5 characters long.";
    case BodyTooLong => assert m == "Body must be less than 2000 characters long.";
    case DateInFuture => assert m == "Date cannot be in the future.";
    case ImageUrlInvalid => assert m == "Image URL must be a valid URL.";
  }

  /** Each message names exactly one failed check. */
  lemma MessagesIdentifyIssues(a: Issue, b: Issue)
    ensures a.Message() == b.Message() <==> a == b
  {
    MessageHasKey(a);
    MessageHasKey(b);
  }

  /**
   * What a mutation returns.  `Forbidden` is the soft failure
   * `{ success: false, msg: "You are not an admin" }`, `NotFound` the soft
   * failure `{ success: false, msg: "Blogpost not found" }`; `Invalid` is the
   * schema's rejection, raised before the handler runs.
   */
  datatype Outcome =
    | Invalid(issues: seq<Issue>)
    | Forbidden
    | NotFound
    | Created(post: Post)
    | Deleted(post: Post)
    | Updated(post: Post)

  // What each field of a post must satisfy, stated as ranges.

  predicate TitleAccepted(title: string) {
    MinTitleLength <= |title| <= MaxTitleLength
  }

  predicate BodyAccepted(body: string) {
    MinBodyLength <= |body| <= MaxBodyLength
  }

  predicate DateAccepted(postDate: int, bound: int) {
    postDate <= bound
  }

  predicate ImageUrlAccepted(imageUrl: Option<string>, isUrl: string -> bool) {
    imageUrl.None? || isUrl(imageUrl.value)
  }

  predicate FieldsAccepted(f: PostFields, bound: int, isUrl: string -> bool) {
    && TitleAccepted(f.title)
    && BodyAccepted(f.body)
    && DateAccepted(f.postDate, bound)
    && ImageUrlAccepted(f.imageUrl, isUrl)
  }

  // The schema checks, each reporting the issues of one field.

  /** `z.string().min(5).max(255)` on the title. */
  function TitleIssues(title: string): (r: seq<Issue>)
    ensures r == [] <==> TitleAccepted(title)
    ensures TitleTooShort in r <==> |title| < MinTitleLength
    ensures TitleTooLong in r <==> |title| > MaxTitleLength
    ensures forall i :: i in r ==> i == TitleTooShort || i == TitleTooLong
  {
    (if |title| < MinTitleLength then [TitleTooShort] else [])
    + (if |title| > MaxTitleLength then [TitleTooLong] else [])
  }

  /** `z.string().min(5).max(2000)` on the body. */
  function BodyIssues(body: string): (r: seq<Issue>)
    ensures r == [] <==> BodyAccepted(body)
    ensures BodyTooShort in r <==> |body| < MinBodyLength
    ensures BodyTooLong in r <==> |body| > MaxBodyLength
    ensures forall i :: i in r ==> i == BodyTooShort || i == BodyTooLong
  {
    (if |body| < MinBodyLength then [BodyTooShort] else [])
    + (if |body| > MaxBodyLength then [BodyTooLong] else [])
  }

  /** `z.date().max(bound)`: a date equal to the bound is still accepted. */
  function PostDateIssues(postDate: int, bound: int): (r: seq<Issue>)
    ensures r == [] <==> DateAccepted(postDate, bound)
    ensures r != [] <==> postDate > bound
    ensures forall i :: i in r ==> i == DateInFuture
  {
    if postDate > bound then [DateInFuture] else []
  }

  /** `z.string().url().nullable()`: null passes, any string must parse as a URL. */
  function ImageUrlIssues(imageUrl: Option<string>, isUrl: string -> bool): (r: seq<Issue>)
    ensures r == [] <==> ImageUrlAccepted(imageUrl, isUrl)
    ensures r != [] <==> imageUrl.Some? && !isUrl(imageUrl.value)
    ensures forall i :: i in r ==> i == ImageUrlInvalid
  {
    match imageUrl
    case None => []
    case Some(url) => if isUrl(url) then [] else [ImageUrlInvalid]
  }

  /** The object schema shared by create and update: every issue of every field, in field order. */
  function FieldsIssues(f: PostFields, bound: int, isUrl: string -> bool): (r: seq<Issue>)
    ensures r == [] <==> FieldsAccepted(f, bound, isUrl)
    ensures |r| <= 4
    ensures forall x :: x in r <==>
              || x in TitleIssues(f.title)
              || x in BodyIssues(f.body)
              || x in PostDateIssues(f.postDate, bound)
              || x in ImageUrlIssues(f.imageUrl, isUrl)
  {
    var t, b, d, u := TitleIssues(f.title), BodyIssues(f.body),
                      PostDateIssues(f.postDate, bound), ImageUrlIssues(f.imageUrl, isUrl);
    assert |t| <= 1 && |b| <= 1 && |d| <= 1 && |u| <= 1;
    t + b + d + u
  }

  /** Each kind of issue is reported exactly when its own field fails its check. */
  lemma FieldsIssuesReportEachFailure(f: PostFields, bound: int, isUrl: string -> bool)
    ensures var r := FieldsIssues(f, bound, isUrl);
      && (TitleTooShort in r <==> |f.title| < MinTitleLength)
      && (TitleTooLong in r <==> |f.title| > MaxTitleLength)
      && (BodyTooShort in r <==> |f.body| < MinBodyLength)
      && (BodyTooLong in r <==> |f.body| > MaxBodyLength)
      && (DateInFuture in r <==> f.postDate > bound)
      && (ImageUrlInvalid in r <==> f.imageUrl.Some? && !isUrl(f.imageUrl.value))
  {
    var r := FieldsIssues(f, bound, isUrl);
    assert TitleTooShort in r <==> TitleTooShort in TitleIssues(f.title);
    assert TitleTooLong in r <==> TitleTooLong in TitleIssues(f.title);
    assert BodyTooShort in r <==> BodyTooShort in BodyIssues(f.body);
    assert BodyTooLong in r <==> BodyTooLong in BodyIssues(f.body);
    assert DateInFuture in r <==> DateInFuture in PostDateIssues(f.postDate, bound);
    assert ImageUrlInvalid in r <==> ImageUrlInvalid in ImageUrlIssues(f.imageUrl, isUrl);
  }

  /**
   * The bound is read once, when the router is built, so once the server has
   * been up for more than four hours a post dated at the moment of the request
   * is refused as lying in the future.
   */
  lemma StaleBoundRejectsPresent(loadClock: int, now: int, f: PostFields, isUrl: string -> bool)
    requires now > loadClock + FourHours && f.postDate == now
    ensures DateInFuture in FieldsIssues(f, loadClock + FourHours, isUrl)
    ensures !FieldsAccepted(f, loadClock + FourHours, isUrl)
  {
  }

  /** The row a successful create or update writes under `id`. */
  function WithFields(id: int, f: PostFields): (p: Post)
    ensures p.id == id
  {
    Post(id, f.title, f.body, f.postDate, f.imageUrl)
  }

  /** Every row sits under its own id, and every id is below the next auto-increment value. */
  ghost predicate WellFormedTable(posts: map<int, Post>, nextId: int) {
    forall id :: id in posts ==> posts[id].id == id && id < nextId
  }

  /**
   * The router together with the post table it writes.  The two date bounds
   * are computed once, from the clock readings taken when the router object
   * is built (`addHours(new Date(), 4)` stands in each schema), and never move
   * afterwards.
   */
  class PostRouter {
    const createBound: int
    const updateBound: int
    /** zod's URL check, an external parser. */
    const isUrl: string -> bool
    var posts: map<int, Post>
    var nextId: int

    ghost predicate Valid()
      reads this
    {
      WellFormedTable(posts, nextId)
    }

    constructor (createSchemaClock: int, updateSchemaClock: int, isUrl: string -> bool,
                 rows: map<int, Post>, nextId: int)
      requires WellFormedTable(rows, nextId)
      ensures Valid()
      ensures createBound == createSchemaClock + FourHours
      ensures updateBound == updateSchemaClock + FourHours
      ensures this.isUrl == isUrl
      ensures posts == rows && this.nextId == nextId
    {
      createBound := createSchemaClock + FourHours;
      updateBound := updateSchemaClock + FourHours;
      this.isUrl := isUrl;
      posts := rows;
      this.nextId := nextId;
    }

    /** `db.blogPost.findUnique({ where: { id } })`. */
    method FindUnique(id: int) returns (p: Option<Post>)
      requires Valid()
      ensures p.Some? <==> id in posts
      ensures p.Some? ==> p.value == posts[id] && p.value.id == id
    {
      p := if id in posts then Some(posts[id]) else None;
    }

    /** `createBlogPost`: validate, check the role, insert one row under a new id. */
    method CreateBlogPost(isAdmin: bool, input: PostFields) returns (r: Outcome)
      requires Valid()
      modifies this
      ensures Valid()
      ensures FieldsIssues(input, createBound, isUrl) != [] ==>
                r == Invalid(FieldsIssues(input, createBound, isUrl))
      ensures FieldsAccepted(input, createBound, isUrl) && !isAdmin ==> r == Forbidden
      ensures !r.Created? ==> posts == old(posts) && nextId == old(nextId)
      ensures r.Created? <==> FieldsAccepted(input, createBound, isUrl) && isAdmin
      ensures r.Created? ==>
                && r.post == WithFields(old(nextId), input)
                && old(nextId) !in old(posts)
                && posts == old(posts)[old(nextId) := r.post]
                && |posts| == |old(posts)| + 1
                && nextId == old(nextId) + 1
      ensures forall id :: id in old(posts) ==> id in posts && posts[id] == old(posts)[id]
    {
      var issues := FieldsIssues(input, createBound, isUrl);
      if issues != [] {
        return Invalid(issues);
      }
      if !isAdmin {
        return Forbidden;
      }
      var post := WithFields(nextId, input);
      posts := posts[nextId := post];
      nextId := nextId + 1;
      r := Created(post);
    }

    /** `deleteBlogPost`: the input is a bare number, so only role and lookup can fail. */
    method DeleteBlogPost(isAdmin: bool, id: int) returns (r: Outcome)
      requires Valid()
      modifies this
      ensures Valid()
      ensures nextId == old(nextId)
      ensures !isAdmin ==> r == Forbidden
      ensures isAdmin && id !in old(posts) ==> r == NotFound
      ensures !r.Deleted? ==> posts == old(posts)
      ensures r.Deleted? <==> isAdmin && id in old(posts)
      ensures r.Deleted? ==>
                && r.post == old(posts)[id]
                && posts == old(posts) - {id}
                && |posts| == |old(posts)| - 1
      ensures forall k :: k in old(posts) && k != id ==> k in posts && posts[k] == old(posts)[k]
      ensures forall k :: k in posts ==> k in old(posts)
    {
      if !isAdmin {
        return Forbidden;
      }
      var found := FindUnique(id);
      if found.None? {
        return NotFound;
      }
      posts := posts - {id};
      r := Deleted(found.value);
    }

    /** `updateBlogPost`: validate, check the role, look up, overwrite the four fields in place. */
    method UpdateBlogPost(isAdmin: bool, id: int, input: PostFields) returns (r: Outcome)
      requires Valid()
      modifies this
      ensures Valid()
      ensures nextId == old(nextId)
      ensures posts.Keys == old(posts).Keys
      ensures FieldsIssues(input, updateBound, isUrl) != [] ==>
                r == Invalid(FieldsIssues(input, updateBound, isUrl))
      ensures FieldsAccepted(input, updateBound, isUrl) && !isAdmin ==> r == Forbidden
      ensures FieldsAccepted(input, updateBound, isUrl) && isAdmin && id !in old(posts) ==> r == NotFound
      ensures !r.Updated? ==> posts == old(posts)
      ensures r.Updated? <==> FieldsAccepted(input, updateBound, isUrl) && isAdmin && id in old(posts)
      ensures r.Updated? ==>
                && r.post == WithFields(id, input)
                && posts == old(posts)[id := r.post]
      ensures forall k :: k in old(posts) && k != id ==> posts[k] == old(posts)[k]
    {
      var issues := FieldsIssues(input, updateBound, isUrl);
      if issues != [] {
        return Invalid(issues);
      }
      if !isAdmin {
        return Forbidden;
      }
      var found := FindUnique(id);
      if found.None? {
        return NotFound;
      }
      var post := WithFields(id, input);
      posts := posts[id := post];
      r := Updated(post);
    }
  }
}

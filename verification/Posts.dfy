/** Blog posts (`models/posts.js`): the `published_at` lifecycle of `create`
    and `update`, and the published-only listings, newest first and paged. */
module Posts {
  import opened Common
  import opened Ordering

  const PublishedStatus := "published"
  const DraftStatus := "draft"

  /** The form data `create` and `update` receive. */
  datatype PostInput = PostInput(
    title: Text, slug: Text, excerpt: Text, content: Text, featuredImage: Text,
    authorId: Option<int>, categoryId: Option<int>, metaDescription: Text,
    metaKeywords: Text, status: Text)

  /** A row of `posts`; `title` and `slug` are `NOT NULL`, `slug` is unique. */
  datatype Post = Post(
    id: int, title: string, slug: string, excerpt: Text, content: Text,
    featuredImage: Text, authorId: Option<int>, categoryId: Option<int>,
    metaDescription: Text, metaKeywords: Text, status: Text, publishedAt: Text,
    createdAt: string, updatedAt: string)

  predicate IsPublished(p: Post) { p.status == Some(PublishedStatus) }

  /** The key of `ORDER BY created_at DESC`. */
  function CreatedAt(p: Post): Text { Some(p.createdAt) }

  /** The key of `ORDER BY published_at DESC`. */
  function PublishedAt(p: Post): Text { p.publishedAt }

  /** A published post carries a publication date. */
  predicate Dated(p: Post) { IsPublished(p) ==> Present(p.publishedAt) }

  /** `data.slug || slugify(data.title, …)`. The `slugify` package is a
      parameter; it throws on a missing title, giving `None`. */
  function ChooseSlug(d: PostInput, slugify: string -> string): (r: Option<string>)
    ensures r.None? <==> !Present(d.slug) && d.title.None?
    ensures Present(d.slug) ==> r == d.slug
    ensures !Present(d.slug) && d.title.Some? ==> r == Some(slugify(d.title.value))
  {
    if Present(d.slug) then d.slug
    else if d.title.Some? then Some(slugify(d.title.value))
    else None
  }

  /** The status written by both `create` and `update`. */
  function StatusOf(d: PostInput): (r: string)
    ensures r == PublishedStatus <==> d.status == Some(PublishedStatus)
    ensures !Present(d.status) ==> r == DraftStatus
  {
    Or(d.status, DraftStatus)
  }

  /** The text columns both `create` and `update` write from the form data:
      empty texts become `''`, a missing image NULL, a zero category NULL. */
  predicate BodyColumns(d: PostInput, r: Post) {
    && KeptOr(d.excerpt, r.excerpt, "") && KeptOr(d.content, r.content, "")
    && KeptOrNull(d.featuredImage, r.featuredImage) && IdKeptOrNull(d.categoryId, r.categoryId)
    && KeptOr(d.metaDescription, r.metaDescription, "") && KeptOr(d.metaKeywords, r.metaKeywords, "")
  }

  /** The row `create` writes for `d`, with `now` the time of the call (the
      ISO time of `published_at` and the insert's `created_at` and
      `updated_at` defaults); `None` when the title is missing (slugify
      throws, or `NOT NULL` fails). */
  function NewRow(d: PostInput, id: int, now: string, slugify: string -> string): (r: Option<Post>)
    ensures r.None? <==> d.title.None?
    ensures r.Some? ==> r.value.id == id && r.value.title == d.title.value
    ensures r.Some? ==> r.value.createdAt == now && r.value.updatedAt == now
    ensures r.Some? ==> Some(r.value.slug) == ChooseSlug(d, slugify) && BodyColumns(d, r.value)
    ensures r.Some? ==> r.value.status == Some(StatusOf(d)) && r.value.authorId == d.authorId
    ensures r.Some? ==> (r.value.publishedAt.Some? <==> IsPublished(r.value))
    ensures r.Some? && r.value.publishedAt.Some? ==> r.value.publishedAt.value == now
    ensures r.Some? && now != "" ==> Dated(r.value)
  {
    if d.title.None? then None
    else
      Some(Post(id, d.title.value, ChooseSlug(d, slugify).value,
                Some(Or(d.excerpt, "")), Some(Or(d.content, "")), OrNull(d.featuredImage),
                d.authorId, OrNullId(d.categoryId),
                Some(Or(d.metaDescription, "")), Some(Or(d.metaKeywords, "")),
                Some(StatusOf(d)),
                if d.status == Some(PublishedStatus) then Some(now) else None, now, now))
  }

  predicate SlugTaken(table: seq<Post>, slug: string, except: Option<int>) {
    exists i :: 0 <= i < |table| && table[i].slug == slug && Some(table[i].id) != except
  }

  /** `create(data)`: `None` when the insert fails, on a missing title or a
      slug some post already has. */
  function Create(table: seq<Post>, d: PostInput, id: int, now: string, slugify: string -> string): (r: Option<seq<Post>>)
    ensures r.None? <==> d.title.None? || SlugTaken(table, ChooseSlug(d, slugify).value, None)
    ensures r.Some? ==> |r.value| == |table| + 1 && r.value[..|table|] == table
    ensures r.Some? ==> Some(r.value[|table|]) == NewRow(d, id, now, slugify)
  {
    match NewRow(d, id, now, slugify)
    case None => None
    case Some(p) => if SlugTaken(table, p.slug, None) then None else Some(table + [p])
  }

  /** The row `update` writes over the existing row `e`, stamping
      `updated_at` with `now`. `author_id` is not among the columns written. */
  function Revise(e: Post, d: PostInput, now: string, slug: string): (r: Post)
    requires d.title.Some?
    ensures r.id == e.id && r.authorId == e.authorId && r.createdAt == e.createdAt
    ensures r.updatedAt == now && BodyColumns(d, r)
    ensures r.title == d.title.value && r.slug == slug && r.status == Some(StatusOf(d))
    ensures Present(e.publishedAt) ==> r.publishedAt == e.publishedAt
    ensures !Present(e.publishedAt) && IsPublished(r) ==> r.publishedAt == Some(now)
    ensures !IsPublished(r) ==> r.publishedAt == e.publishedAt
    ensures now != "" ==> Dated(r)
  {
    var publishedAt :=
      if d.status == Some(PublishedStatus) && !Present(e.publishedAt) then Some(now)
      else e.publishedAt;
    Post(e.id, d.title.value, slug, Some(Or(d.excerpt, "")), Some(Or(d.content, "")),
         OrNull(d.featuredImage), e.authorId, OrNullId(d.categoryId),
         Some(Or(d.metaDescription, "")), Some(Or(d.metaKeywords, "")),
         Some(StatusOf(d)), publishedAt, e.createdAt, now)
  }

  predicate HasId(table: seq<Post>, id: int) {
    exists i :: 0 <= i < |table| && table[i].id == id
  }

  /** `getById(id)`: the first row with that id. */
  function GetById(table: seq<Post>, id: int): (r: Option<Post>)
    ensures r.None? <==> !HasId(table, id)
    ensures r.Some? ==> r.value in table && r.value.id == id
  {
    if |table| == 0 then None
    else if table[0].id == id then Some(table[0])
    else
      assert HasId(table, id) <==> HasId(table[1..], id) by {
        if HasId(table, id) {
          var i :| 0 <= i < |table| && table[i].id == id;
          assert table[1..][i - 1].id == id;
        }
        if HasId(table[1..], id) {
          var i :| 0 <= i < |table[1..]| && table[1..][i].id == id;
          assert table[i + 1].id == id;
        }
      }
      GetById(table[1..], id)
  }

  /** `update(id, data)`: `None` when it throws (missing title with no slug,
      or no row `id`, whose `published_at` is read) or the statement fails
      (missing title, or a slug another post has). */
  function Update(table: seq<Post>, id: int, d: PostInput, now: string, slugify: string -> string): (r: Option<seq<Post>>)
    ensures r.None? <==>
      d.title.None? || !HasId(table, id) || SlugTaken(table, ChooseSlug(d, slugify).value, Some(id))
    ensures r.Some? ==> |r.value| == |table|
    ensures r.Some? ==> forall i :: 0 <= i < |table| && table[i].id != id ==> r.value[i] == table[i]
    ensures r.Some? ==> forall i :: 0 <= i < |table| && table[i].id == id ==>
      r.value[i] == Revise(GetById(table, id).value, d, now, ChooseSlug(d, slugify).value)
  {
    if d.title.None? then None
    else
      var slug := ChooseSlug(d, slugify).value;
      match GetById(table, id)
      case None => None
      case Some(e) =>
        if SlugTaken(table, slug, Some(id)) then None
        else
          var p := Revise(e, d, now, slug);
          Some(seq(|table|, i requires 0 <= i < |table| => if table[i].id == id then p else table[i]))
  }

  /** One `update` call on a post: its data, its time, and the slug chosen. */
  datatype Edit = Edit(input: PostInput, now: string, slug: string)

  predicate Titled(edits: seq<Edit>) {
    forall k :: 0 <= k < |edits| ==> edits[k].input.title.Some?
  }

  predicate Publishes(x: Edit) { x.input.status == Some(PublishedStatus) }

  /** Index of the first edit that publishes, or `|edits|`. */
  function FirstPublish(edits: seq<Edit>): (k: nat)
    ensures k <= |edits|
    ensures forall i :: 0 <= i < k ==> !Publishes(edits[i])
    ensures k < |edits| ==> Publishes(edits[k])
  {
    if |edits| == 0 || Publishes(edits[0]) then 0
    else
      assert forall i :: 0 <= i < |edits[1..]| ==> edits[1..][i] == edits[i + 1];
      1 + FirstPublish(edits[1..])
  }

  /** A post after a series of updates, oldest first. Once it has a
      publication date no update changes or clears it, even when the post
      goes back to draft; an undated post gets the time of the first update
      that publishes it. The author never changes. */
  function ReviseAll(e: Post, edits: seq<Edit>): (r: Post)
    requires Titled(edits)
    requires forall k :: 0 <= k < |edits| ==> edits[k].now != ""
    ensures r.id == e.id && r.authorId == e.authorId
    ensures Present(e.publishedAt) ==> r.publishedAt == e.publishedAt
    ensures !Present(e.publishedAt) && FirstPublish(edits) < |edits| ==>
      r.publishedAt == Some(edits[FirstPublish(edits)].now)
    ensures FirstPublish(edits) == |edits| ==> r.publishedAt == e.publishedAt
    decreases |edits|
  {
    if |edits| == 0 then e
    else
      var x := edits[0];
      var next := Revise(e, x.input, x.now, x.slug);
      assert forall k :: 0 <= k < |edits[1..]| ==> edits[1..][k] == edits[k + 1];
      var r := ReviseAll(next, edits[1..]);
      assert Publishes(edits[0]) ==> FirstPublish(edits) == 0;
      assert !Publishes(edits[0]) ==>
        FirstPublish(edits) == 1 + FirstPublish(edits[1..]) && next.publishedAt == e.publishedAt;
      r
  }

  /** `delete(id)`. */
  function Delete(table: seq<Post>, id: int): (r: seq<Post>)
    ensures forall p :: p in r <==> p in table && p.id != id
  {
    var r := Filter(table, (p: Post) => p.id != id);
    assert forall p :: p in table && p.id != id ==> p in r by {
      forall p | p in table && p.id != id ensures p in r {
        FilterKeeps(table, (p: Post) => p.id != id, p);
      }
    }
    r
  }

  /** `getBySlug(slug)`: the post with that slug, whatever its status. */
  function GetBySlug(table: seq<Post>, slug: string): (r: Option<Post>)
    ensures r.None? <==> !SlugTaken(table, slug, None)
    ensures r.Some? ==> r.value in table && r.value.slug == slug
  {
    if |table| == 0 then None
    else if table[0].slug == slug then Some(table[0])
    else
      assert SlugTaken(table, slug, None) <==> SlugTaken(table[1..], slug, None) by {
        if SlugTaken(table, slug, None) {
          var i :| 0 <= i < |table| && table[i].slug == slug;
          assert table[1..][i - 1].slug == slug;
        }
        if SlugTaken(table[1..], slug, None) {
          var i :| 0 <= i < |table[1..]| && table[1..][i].slug == slug;
          assert table[i + 1].slug == slug;
        }
      }
      GetBySlug(table[1..], slug)
  }

  /** A newly created post is found by its slug. */
  lemma CreateThenGetBySlug(table: seq<Post>, d: PostInput, id: int, now: string, slugify: string -> string)
    requires Create(table, d, id, now, slugify).Some?
    ensures GetBySlug(Create(table, d, id, now, slugify).value, ChooseSlug(d, slugify).value)
            == NewRow(d, id, now, slugify)
  {
    var t := Create(table, d, id, now, slugify).value;
    var p := NewRow(d, id, now, slugify).value;
    assert t == table + [p];
    GetBySlugAfterFresh(table, p);
  }

  lemma {:induction false} GetBySlugAfterFresh(table: seq<Post>, p: Post)
    requires !SlugTaken(table, p.slug, None)
    ensures GetBySlug(table + [p], p.slug) == Some(p)
  {
    if |table| == 0 {
      assert table + [p] == [p];
    } else {
      assert table[0].slug != p.slug;
      assert (table + [p])[0] == table[0];
      assert (table + [p])[1..] == table[1..] + [p];
      assert !SlugTaken(table[1..], p.slug, None);
      GetBySlugAfterFresh(table[1..], p);
    }
  }

  // ---------------------------------------------------------------------
  // Published listings: ORDER BY published_at DESC, LIMIT, OFFSET
  // ---------------------------------------------------------------------

  /** `getAll()`: every post, once, newest first by creation. */
  function GetAll(table: seq<Post>): (r: seq<Post>)
    ensures NewestFirst(r, CreatedAt)
    ensures multiset(r) == multiset(table)
  {
    OrderNewestFirst(table, CreatedAt)
  }

  /** The published posts, newest first. */
  function Listing(table: seq<Post>): (r: seq<Post>)
    ensures NewestFirst(r, PublishedAt)
    ensures forall x :: multiset(r)[x] == if IsPublished(x) then multiset(table)[x] else 0
    ensures |r| == CountWhere(table, IsPublished)
  {
    var r := OrderNewestFirst(Filter(table, IsPublished), PublishedAt);
    forall x ensures multiset(r)[x] == if IsPublished(x) then multiset(table)[x] else 0 {
      FilterMultiplicity(table, IsPublished, x);
    }
    assert |r| == |multiset(r)| == |multiset(Filter(table, IsPublished))|;
    r
  }

  /** `getPublished(limit = 10, offset = 0)`. */
  function GetPublished(table: seq<Post>, limit: Option<nat>, offset: Option<nat>): (r: seq<Post>)
    ensures NewestFirst(r, PublishedAt)
    ensures forall x :: x in r ==> x in table && IsPublished(x)
    ensures var n := Count(table); var o := offset.GetOr(0);
      |r| == if o >= n then 0 else Min(limit.GetOr(10), n - o)
  {
    var all := Listing(table);
    PageNewestFirst(all, PublishedAt, limit.GetOr(10), offset.GetOr(0));
    var r := Page(all, limit.GetOr(10), offset.GetOr(0));
    forall x | x in r ensures x in table && IsPublished(x) {
      assert x in multiset(all);
    }
    r
  }

  /** `getRecent(limit = 3)`. */
  function GetRecent(table: seq<Post>, limit: Option<nat>): (r: seq<Post>)
    ensures NewestFirst(r, PublishedAt)
    ensures forall x :: x in r ==> x in table && IsPublished(x)
    ensures |r| == Min(limit.GetOr(3), Count(table))
  {
    GetPublished(table, Some(limit.GetOr(3)), Some(0))
  }

  /** `count()`: the number of published posts, which is the length of the
      full published listing; zero exactly when no post is published. */
  function Count(table: seq<Post>): (n: nat)
    ensures n <= |table|
    ensures n == |Listing(table)|
    ensures n == 0 <==> forall x :: x in table ==> !IsPublished(x)
  {
    var n := CountWhere(table, IsPublished);
    var l := Listing(table);
    assert n == 0 <==> forall x :: x in table ==> !IsPublished(x) by {
      if n == 0 {
        forall x | x in table ensures !IsPublished(x) {
          assert multiset(table)[x] > 0;
          assert multiset(l)[x] == 0;
        }
      } else {
        assert multiset(l)[l[0]] > 0;
        assert l[0] in multiset(table);
      }
    }
    n
  }

  /** Creating a post raises `count()` by one exactly when it is created with
      status `'published'`. */
  lemma CountAfterCreate(table: seq<Post>, d: PostInput, id: int, now: string, slugify: string -> string)
    requires Create(table, d, id, now, slugify).Some?
    ensures Count(Create(table, d, id, now, slugify).value)
            == Count(table) + if d.status == Some(PublishedStatus) then 1 else 0
  {
    var r := Create(table, d, id, now, slugify).value;
    assert r == table + [r[|table|]];
    CountWhereAppend(table, r[|table|], IsPublished);
  }

  /** Paging through `getPublished` visits every published post exactly as
      often as the table holds it: consecutive pages join up, and one page of
      `count()` rows holds them all. */
  lemma PublishedPagesJoin(table: seq<Post>, a: nat, b: nat, offset: nat)
    ensures GetPublished(table, Some(a), Some(offset)) + GetPublished(table, Some(b), Some(offset + a))
            == GetPublished(table, Some(a + b), Some(offset))
  {
    var all := Listing(table);
    assert GetPublished(table, Some(a), Some(offset)) == Page(all, a, offset);
    assert GetPublished(table, Some(b), Some(offset + a)) == Page(all, b, offset + a);
    assert GetPublished(table, Some(a + b), Some(offset)) == Page(all, a + b, offset);
    PagesTile(all, a, b, offset);
  }

  lemma AllPublishedListed(table: seq<Post>, x: Post)
    ensures x in GetPublished(table, Some(Count(table)), Some(0)) <==> x in table && IsPublished(x)
  {
    var all := Listing(table);
    assert Page(all, Count(table), 0) == all;
    assert x in all <==> multiset(all)[x] > 0;
    assert x in table <==> multiset(table)[x] > 0;
  }

  /** A row of `categories`, as far as the join reads it. */
  datatype Category = Category(id: int, slug: string)

  /** The post's category (by the primary key `category_id`) has this slug. */
  predicate InCategory(p: Post, categories: seq<Category>, slug: string) {
    exists c :: c in categories && p.categoryId == Some(c.id) && c.slug == slug
  }

  /** The filter of `getByCategory`: published, in the category with that slug. */
  function InCategoryPublished(categories: seq<Category>, slug: string): Post -> bool {
    (x: Post) => IsPublished(x) && InCategory(x, categories, slug)
  }

  /** The published posts of the category, newest first, each as often as in
      the table. */
  function CategoryListing(table: seq<Post>, categories: seq<Category>, slug: string): (r: seq<Post>)
    ensures NewestFirst(r, PublishedAt)
    ensures forall x ::
              multiset(r)[x] == if IsPublished(x) && InCategory(x, categories, slug) then multiset(table)[x] else 0
    ensures |r| == CountWhere(table, InCategoryPublished(categories, slug))
  {
    var p := InCategoryPublished(categories, slug);
    var r := OrderNewestFirst(Filter(table, p), PublishedAt);
    forall x ensures multiset(r)[x] == if p(x) then multiset(table)[x] else 0 {
      FilterMultiplicity(table, p, x);
    }
    assert |r| == |multiset(r)| == |multiset(Filter(table, p))|;
    r
  }

  /** `getByCategory(categorySlug, limit = 10)`: the newest `limit` published
      posts of that category: a prefix of the category's listing, as long as
      the limit allows and the category has posts. */
  function GetByCategory(table: seq<Post>, categories: seq<Category>, slug: string, limit: Option<nat>): (r: seq<Post>)
    ensures NewestFirst(r, PublishedAt)
    ensures |r| == Min(limit.GetOr(10), CountWhere(table, InCategoryPublished(categories, slug)))
    ensures r == CategoryListing(table, categories, slug)[..|r|]
    ensures forall x :: x in r ==> x in table && IsPublished(x) && InCategory(x, categories, slug)
  {
    var all := CategoryListing(table, categories, slug);
    var r := Page(all, limit.GetOr(10), 0);
    assert r == all[0..|r|];
    assert NewestFirst(r, PublishedAt) by {
      NewestFirstSlice(all, PublishedAt, 0, |r|);
    }
    forall x | x in r ensures x in table && IsPublished(x) && InCategory(x, categories, slug) {
      assert x in multiset(all);
    }
    r
  }

  /** With a limit covering the whole category, `getByCategory` lists every
      published post of the category and nothing else. */
  lemma WholeCategoryListed(table: seq<Post>, categories: seq<Category>, slug: string, x: Post)
    ensures x in GetByCategory(table, categories, slug, Some(|table|))
            <==> x in table && IsPublished(x) && InCategory(x, categories, slug)
  {
    var all := CategoryListing(table, categories, slug);
    assert GetByCategory(table, categories, slug, Some(|table|)) == all;
    assert x in all <==> multiset(all)[x] > 0;
    assert x in table <==> multiset(table)[x] > 0;
  }
}

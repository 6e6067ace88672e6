/**
 * The post helpers of the dashboard API (dashboard/api/server.py): the list of
 * posts that `load_posts`/`save_posts` keep in data/posts.json, held here in
 * memory. Each change says whether the save succeeded; a failed save leaves the
 * stored list as it was.
 */
module PostStore {
  import opened Wrappers

  /** A stored post; a key the JSON entry lacks is None. */
  datatype Post = Post(id: Option<string>, title: string, content: string, status: Option<string>,
                       createdAt: Option<string>, publishedAt: Option<string>, views: Option<int>)

  /** The position of the first post with the id, or -1 when none has it. */
  function IndexOf(posts: seq<Post>, id: string): (k: int)
    ensures -1 <= k < |posts|
    ensures k >= 0 ==> posts[k].id == Some(id) && forall j :: 0 <= j < k ==> posts[j].id != Some(id)
    ensures k < 0 ==> forall j :: 0 <= j < |posts| ==> posts[j].id != Some(id)
  {
    if posts == [] then -1
    else if posts[0].id == Some(id) then 0
    else
      var k := IndexOf(posts[1..], id);
      if k < 0 then -1 else k + 1
  }

  /** The post `create_post` builds: a draft with no views, not yet published. */
  function NewPost(stamp: string, now: string, title: Option<string>, content: Option<string>): (p: Post)
    ensures p.status == Some("draft") && p.views == Some(0) && p.publishedAt.None?
    ensures p.id == Some("post_" + stamp) && p.createdAt == Some(now)
  {
    Post(Some("post_" + stamp), title.GetOr("Untitled"), content.GetOr(""), Some("draft"), Some(now), None, Some(0))
  }

  /** The keys `publish_post` passes to `update_post`. */
  function Published(p: Post, now: string): Post {
    p.(status := Some("published"), publishedAt := Some(now))
  }

  /** The posts without the id, in their order: the list comprehension of `delete_post`. */
  function WithoutId(posts: seq<Post>, id: string): (r: seq<Post>)
    ensures |r| <= |posts|
    ensures forall j :: 0 <= j < |r| ==> r[j].id != Some(id)
    ensures forall p :: p in posts && p.id != Some(id) ==> p in r
    ensures |r| == |posts| <==> forall j :: 0 <= j < |posts| ==> posts[j].id != Some(id)
  {
    if posts == [] then []
    else
      var init := posts[..|posts| - 1];
      var last := posts[|posts| - 1];
      var r := WithoutId(init, id);
      assert forall p :: p in posts ==> p in init || p == last;
      if last.id != Some(id) then r + [last] else r
  }

  /** A list with no post of the id is kept whole. */
  lemma {:induction false} WithoutIdKeepsAll(posts: seq<Post>, id: string)
    requires forall j :: 0 <= j < |posts| ==> posts[j].id != Some(id)
    ensures WithoutId(posts, id) == posts
    decreases |posts|
  {
    if posts != [] {
      WithoutIdKeepsAll(posts[..|posts| - 1], id);
    }
  }

  /** Filtering works piece by piece, so the kept posts stay in their order. */
  lemma {:induction false} WithoutIdAppend(a: seq<Post>, b: seq<Post>, id: string)
    ensures WithoutId(a + b, id) == WithoutId(a, id) + WithoutId(b, id)
    decreases |b|
  {
    if b == [] {
      assert a + b == a;
    } else {
      assert (a + b)[..|a + b| - 1] == a + b[..|b| - 1];
      WithoutIdAppend(a, b[..|b| - 1], id);
    }
  }

  class Store {
    var posts: seq<Post>

    constructor(stored: seq<Post>)
      ensures posts == stored
    {
      posts := stored;
    }

    /** `create_post`: one new draft appended; the post is returned whether or not the save succeeded. */
    method CreatePost(stamp: string, now: string, title: Option<string>, content: Option<string>, saved: bool)
      returns (post: Post)
      modifies this
      ensures post == NewPost(stamp, now, title, content)
      ensures posts == if saved then old(posts) + [post] else old(posts)
    {
      post := NewPost(stamp, now, title, content);
      if saved {
        posts := posts + [post];
      }
    }

    /** `get_post_by_id`: the first post with the id. */
    method GetPostById(id: string) returns (post: Option<Post>)
      ensures IndexOf(posts, id) < 0 ==> post.None?
      ensures IndexOf(posts, id) >= 0 ==> post == Some(posts[IndexOf(posts, id)])
    {
      for i := 0 to |posts|
        invariant forall j :: 0 <= j < i ==> posts[j].id != Some(id)
      {
        if posts[i].id == Some(id) {
          return Some(posts[i]);
        }
      }
      return None;
    }

    /**
     * `update_post` with the keys `publish_post` sends: only the first post with
     * the id changes, and the result is the save's; without such a post nothing
     * changes and the result is false.
     */
    method PublishById(id: string, now: string, saved: bool) returns (ok: bool)
      modifies this
      ensures IndexOf(old(posts), id) < 0 ==> !ok && posts == old(posts)
      ensures IndexOf(old(posts), id) >= 0 ==> ok == saved
      ensures IndexOf(old(posts), id) >= 0 && saved ==>
        posts == old(posts)[IndexOf(old(posts), id) := Published(old(posts)[IndexOf(old(posts), id)], now)]
      ensures !saved ==> posts == old(posts)
    {
      for i := 0 to |posts|
        invariant forall j :: 0 <= j < i ==> posts[j].id != Some(id)
      {
        if posts[i].id == Some(id) {
          if saved {
            posts := posts[i := Published(posts[i], now)];
          }
          return saved;
        }
      }
      return false;
    }

    /**
     * `delete_post`: every post with the id removed, the others kept in order;
     * 404 when none had it. The save's result is not checked, so a failed save
     * still answers 200.
     */
    method DeletePost(id: string, saved: bool) returns (code: int)
      modifies this
      ensures code == 404 <==> forall j :: 0 <= j < |old(posts)| ==> old(posts)[j].id != Some(id)
      ensures code == 404 || code == 200
      ensures posts == if code == 200 && saved then WithoutId(old(posts), id) else old(posts)
    {
      var kept: seq<Post> := [];
      for i := 0 to |posts|
        invariant kept == WithoutId(posts[..i], id)
      {
        assert posts[..i + 1][..i] == posts[..i];
        if posts[i].id != Some(id) {
          kept := kept + [posts[i]];
        }
      }
      assert posts[..|posts|] == posts;
      if |kept| == |posts| {
        return 404;
      }
      if saved {
        posts := kept;
      }
      code := 200;
    }

    /**
     * `publish_post`: 404 for an unknown id, 500 when the update's save fails,
     * otherwise 200 with the post published at `now`.
     */
    method PublishPost(id: string, now: string, saved: bool) returns (code: int)
      modifies this
      ensures IndexOf(old(posts), id) < 0 ==> code == 404 && posts == old(posts)
      ensures IndexOf(old(posts), id) >= 0 ==> code == (if saved then 200 else 500)
      ensures code == 200 ==>
        posts == old(posts)[IndexOf(old(posts), id) := Published(old(posts)[IndexOf(old(posts), id)], now)]
      ensures code != 200 ==> posts == old(posts)
    {
      var post := GetPostById(id);
      if post.None? {
        return 404;
      }
      var ok := PublishById(id, now, saved);
      code := if ok then 200 else 500;
    }
  }

  // ----- calculate_stats -----

  datatype Stats = Stats(total: nat, published: nat, draft: nat, views: int)

  /** The number of posts whose status is `status`. */
  function CountStatus(posts: seq<Post>, status: string): (n: nat)
    ensures n <= |posts|
  {
    if posts == [] then 0
    else CountStatus(posts[..|posts| - 1], status) + (if posts[|posts| - 1].status == Some(status) then 1 else 0)
  }

  /** The sum of the posts' views, a missing count taken as 0. */
  function SumViews(posts: seq<Post>): int {
    if posts == [] then 0 else SumViews(posts[..|posts| - 1]) + posts[|posts| - 1].views.GetOr(0)
  }

  /** A post is published or a draft, never both. */
  lemma {:induction false} PublishedAndDraftsFit(posts: seq<Post>)
    ensures CountStatus(posts, "published") + CountStatus(posts, "draft") <= |posts|
    decreases |posts|
  {
    if posts != [] {
      PublishedAndDraftsFit(posts[..|posts| - 1]);
    }
  }

  /** `calculate_stats`: every post counted once, published and draft posts among them. */
  function StatsOf(posts: seq<Post>): (s: Stats)
    ensures s.total == |posts| && s.published + s.draft <= s.total
  {
    PublishedAndDraftsFit(posts);
    Stats(|posts|, CountStatus(posts, "published"), CountStatus(posts, "draft"), SumViews(posts))
  }

  /** Creating a post adds one post and one draft and no views. */
  lemma CreateCountsOneDraft(posts: seq<Post>, stamp: string, now: string, title: Option<string>,
                             content: Option<string>)
    ensures var s, t := StatsOf(posts), StatsOf(posts + [NewPost(stamp, now, title, content)]);
      t == Stats(s.total + 1, s.published, s.draft + 1, s.views)
  {
    var ps := posts + [NewPost(stamp, now, title, content)];
    assert ps[..|ps| - 1] == posts;
  }

  /** Changing one post changes a count by what the old and the new post contribute. */
  lemma {:induction false} CountStatusUpdate(posts: seq<Post>, k: nat, p: Post, status: string)
    requires k < |posts|
    ensures CountStatus(posts[k := p], status)
            == CountStatus(posts, status) - (if posts[k].status == Some(status) then 1 else 0)
               + (if p.status == Some(status) then 1 else 0)
    decreases |posts|
  {
    var ps := posts[k := p];
    var n := |posts| - 1;
    if k < n {
      assert ps[..n] == posts[..n][k := p];
      CountStatusUpdate(posts[..n], k, p, status);
    } else {
      assert ps[..n] == posts[..n];
    }
  }

  lemma {:induction false} SumViewsUpdate(posts: seq<Post>, k: nat, p: Post)
    requires k < |posts|
    ensures SumViews(posts[k := p]) == SumViews(posts) - posts[k].views.GetOr(0) + p.views.GetOr(0)
    decreases |posts|
  {
    var ps := posts[k := p];
    var n := |posts| - 1;
    if k < n {
      assert ps[..n] == posts[..n][k := p];
      SumViewsUpdate(posts[..n], k, p);
    } else {
      assert ps[..n] == posts[..n];
    }
  }

  /** Publishing a draft moves it from the drafts to the published posts, views unchanged. */
  lemma PublishMovesDraft(posts: seq<Post>, k: nat, now: string)
    requires k < |posts| && posts[k].status == Some("draft")
    ensures var s, t := StatsOf(posts), StatsOf(posts[k := Published(posts[k], now)]);
      t.total == s.total && t.published == s.published + 1 && t.draft + 1 == s.draft && t.views == s.views
  {
    CountStatusUpdate(posts, k, Published(posts[k], now), "published");
    CountStatusUpdate(posts, k, Published(posts[k], now), "draft");
    SumViewsUpdate(posts, k, Published(posts[k], now));
  }

  // ----- get_posts: the list sorted by created_at, newest first -----

  /** The sort key: `created_at`, or "" when missing. */
  function Key(p: Post): string { p.createdAt.GetOr("") }

  /** Python's `a <= b` on strings: code points compared left to right, a prefix first. */
  predicate StrLe(a: string, b: string) {
    a == [] || (b != [] && (a[0] < b[0] || (a[0] == b[0] && StrLe(a[1..], b[1..]))))
  }

  lemma {:induction false} StrLeTotal(a: string, b: string)
    ensures StrLe(a, b) || StrLe(b, a)
    decreases |a|
  {
    if a != [] && b != [] && a[0] == b[0] {
      StrLeTotal(a[1..], b[1..]);
    }
  }

  lemma {:induction false} StrLeTrans(a: string, b: string, c: string)
    requires StrLe(a, b) && StrLe(b, c)
    ensures StrLe(a, c)
    decreases |a|
  {
    if a != [] && a[0] == b[0] && b[0] == c[0] {
      StrLeTrans(a[1..], b[1..], c[1..]);
    }
  }

  /** Newest first: no post comes before one with a greater key. */
  predicate SortedDesc(ps: seq<Post>) {
    forall i, j :: 0 <= i < j < |ps| ==> StrLe(Key(ps[j]), Key(ps[i]))
  }

  /** Every post of `s[1..]` and `x` has a key at most the head's. */
  lemma AllBelowHead(x: Post, s: seq<Post>, rest: seq<Post>)
    requires SortedDesc(s) && s != [] && StrLe(Key(x), Key(s[0]))
    requires multiset(rest) == multiset(s[1..]) + multiset{x}
    ensures forall j :: 0 <= j < |rest| ==> StrLe(Key(rest[j]), Key(s[0]))
  {
    forall j | 0 <= j < |rest|
      ensures StrLe(Key(rest[j]), Key(s[0]))
    {
      assert rest[j] in multiset(rest);
      if rest[j] != x {
        assert rest[j] in s[1..];
      }
    }
  }

  /**
   * `x` placed after every post whose key is at least its own, so that posts with
   * equal keys keep their order.
   */
  function InsertDesc(x: Post, s: seq<Post>): (r: seq<Post>)
    requires SortedDesc(s)
    ensures SortedDesc(r) && multiset(r) == multiset(s) + multiset{x}
    ensures |r| == |s| + 1
  {
    if s == [] then [x]
    else if StrLe(Key(x), Key(s[0])) then
      var rest := InsertDesc(x, s[1..]);
      assert s == [s[0]] + s[1..];
      AllBelowHead(x, s, rest);
      [s[0]] + rest
    else
      StrLeTotal(Key(x), Key(s[0]));
      forall j | 0 <= j < |s|
        ensures StrLe(Key(s[j]), Key(x))
      {
        if j > 0 {
          StrLeTrans(Key(s[j]), Key(s[0]), Key(x));
        }
      }
      [x] + s
  }

  /**
   * `posts.sort(key=created_at, reverse=True)`: the same posts, newest first; a
   * later post is inserted after the earlier ones with the same key.
   */
  function SortByCreatedDesc(posts: seq<Post>): (r: seq<Post>)
    ensures SortedDesc(r) && multiset(r) == multiset(posts) && |r| == |posts|
  {
    if posts == [] then []
    else
      assert posts == posts[..|posts| - 1] + [posts[|posts| - 1]];
      InsertDesc(posts[|posts| - 1], SortByCreatedDesc(posts[..|posts| - 1]))
  }
}

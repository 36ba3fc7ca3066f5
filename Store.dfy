/** The in-memory post table of lib/blogStore.ts: a list of blog posts, newest
    first, that the store changes in place. Posts are values; ids and creation
    times are chosen by the caller, and nothing here assumes ids are unique. */
module Store {
  import opened Wrappers

  /** A post is either a draft or published; no other status exists. */
  datatype Status = Draft | Published

  /** A creation time, in milliseconds since the epoch. */
  type Timestamp = int

  /** A stored post. */
  datatype BlogPost = BlogPost(
    id: string,
    title: string,
    content: string,
    topic: string,
    createdAt: Timestamp,
    status: Status,
    keywords: seq<string>,
    summary: string)

  /** What a caller hands to `addPost`: a post without its id and creation time. */
  datatype PostFields = PostFields(
    title: string,
    content: string,
    topic: string,
    status: Status,
    keywords: seq<string>,
    summary: string)

  /** The index of the first post whose id is `id`, as `Array.prototype.find`
      scans: every earlier post has another id, and `None` means no post has it. */
  function FirstIndex(posts: seq<BlogPost>, id: string): (r: Option<nat>)
    ensures r.Some? ==> r.value < |posts| && posts[r.value].id == id
    ensures r.Some? ==> forall j :: 0 <= j < r.value ==> posts[j].id != id
    ensures r.None? <==> forall j :: 0 <= j < |posts| ==> posts[j].id != id
  {
    if |posts| == 0 then None
    else if posts[0].id == id then Some(0)
    else match FirstIndex(posts[1..], id)
      case None => None
      case Some(k) => Some(k + 1)
  }

  /** The first post with id `id`, if any: `None` exactly when no post has
      the id, and otherwise a stored post with that id. */
  function Find(posts: seq<BlogPost>, id: string): (r: Option<BlogPost>)
    ensures r.None? <==> forall j :: 0 <= j < |posts| ==> posts[j].id != id
    ensures r.Some? ==> r.value in posts && r.value.id == id
  {
    match FirstIndex(posts, id)
    case None => None
    case Some(i) => Some(posts[i])
  }

  /** The list after the status of the first post with id `id` is set: same
      length, and every post keeps its id. */
  function WithStatus(posts: seq<BlogPost>, id: string, status: Status): (r: seq<BlogPost>)
    ensures |r| == |posts|
    ensures forall j :: 0 <= j < |r| ==> r[j].id == posts[j].id
  {
    match FirstIndex(posts, id)
    case None => posts
    case Some(i) => posts[i := posts[i].(status := status)]
  }

  /** The list `posts.filter(p => p.id !== id)`: every post whose id is not
      `id`, and only those. */
  function Without(posts: seq<BlogPost>, id: string): (r: seq<BlogPost>)
    ensures |r| <= |posts|
    ensures forall p :: p in r <==> p in posts && p.id != id
  {
    if |posts| == 0 then []
    else (if posts[0].id == id then [] else [posts[0]]) + Without(posts[1..], id)
  }

  /** The number of posts with id `id`. */
  function Count(posts: seq<BlogPost>, id: string): nat
  {
    if |posts| == 0 then 0
    else (if posts[0].id == id then 1 else 0) + Count(posts[1..], id)
  }

  /** The store object: `posts` is the private array, newest post first. */
  class BlogStore {
    var posts: seq<BlogPost>

    /** A new store is empty. */
    constructor ()
      ensures posts == []
    {
      posts := [];
    }

    /** Stamps `fields` with the given id and creation time, puts the new post at
        the front and returns it. Every caller-supplied field is copied as it is. */
    method AddPost(fields: PostFields, id: string, createdAt: Timestamp) returns (p: BlogPost)
      modifies this
      ensures p.id == id && p.createdAt == createdAt
      ensures p.title == fields.title && p.content == fields.content && p.topic == fields.topic
      ensures p.status == fields.status && p.keywords == fields.keywords && p.summary == fields.summary
      ensures posts == [p] + old(posts)
    {
      p := BlogPost(id, fields.title, fields.content, fields.topic, createdAt,
                    fields.status, fields.keywords, fields.summary);
      posts := [p] + posts;
    }

    /** A copy of the list, in store order; the store is not changed. */
    method GetPosts() returns (r: seq<BlogPost>)
      ensures r == posts
    {
      r := posts;
    }

    /** The first post with id `id`, or `None` when no post has it. */
    method GetPostById(id: string) returns (r: Option<BlogPost>)
      ensures r.None? <==> forall j :: 0 <= j < |posts| ==> posts[j].id != id
      ensures r.Some? ==> exists i :: 0 <= i < |posts| && r.value == posts[i] && FirstIndex(posts, id) == Some(i)
    {
      r := Find(posts, id);
    }

    /** Sets the status of the first post with id `id`; with no such post the
        store is left as it is. Later posts with the same id keep their status. */
    method UpdatePostStatus(id: string, status: Status)
      modifies this
      ensures posts == WithStatus(old(posts), id, status)
    {
      var i := FirstIndex(posts, id);
      if i.Some? {
        posts := posts[i.value := posts[i.value].(status := status)];
      }
    }

    /** Removes every post with id `id`, keeping the rest in order. */
    method DeletePost(id: string)
      modifies this
      ensures posts == Without(old(posts), id)
    {
      posts := Without(posts, id);
    }
  }

  // ---------------------------------------------------------------------
  // Properties of the status update

  /** `FirstIndex` looks only at ids. */
  lemma {:induction false} FirstIndexOnlyIds(a: seq<BlogPost>, b: seq<BlogPost>, id: string)
    requires |a| == |b|
    requires forall j :: 0 <= j < |a| ==> a[j].id == b[j].id
    ensures FirstIndex(a, id) == FirstIndex(b, id)
  {
    if |a| > 0 && a[0].id != id {
      FirstIndexOnlyIds(a[1..], b[1..], id);
    }
  }

  /** A status update keeps the length and every id, changes at most the first
      post with the matching id, and there changes the status alone. */
  lemma UpdateChangesOnlyFirstMatch(posts: seq<BlogPost>, id: string, status: Status)
    ensures |WithStatus(posts, id, status)| == |posts|
    ensures forall j :: 0 <= j < |posts| ==>
      WithStatus(posts, id, status)[j].(status := posts[j].status) == posts[j]
    ensures forall j :: 0 <= j < |posts| && WithStatus(posts, id, status)[j] != posts[j] ==>
      FirstIndex(posts, id) == Some(j)
    ensures FirstIndex(posts, id).Some? ==>
      WithStatus(posts, id, status)[FirstIndex(posts, id).value].status == status
  {
  }

  /** Looking up the updated id afterwards finds the first match, with the new
      status. */
  lemma UpdateThenFind(posts: seq<BlogPost>, id: string, status: Status)
    ensures Find(WithStatus(posts, id, status), id) ==
      match Find(posts, id)
      case None => None
      case Some(p) => Some(p.(status := status))
  {
    FirstIndexOnlyIds(posts, WithStatus(posts, id, status), id);
  }

  /** Updating an id no post has changes nothing. */
  lemma UpdateAbsent(posts: seq<BlogPost>, id: string, status: Status)
    requires forall j :: 0 <= j < |posts| ==> posts[j].id != id
    ensures WithStatus(posts, id, status) == posts
  {
  }

  /** Setting the same status twice is the same as setting it once. */
  lemma UpdateIdempotent(posts: seq<BlogPost>, id: string, status: Status)
    ensures WithStatus(WithStatus(posts, id, status), id, status) == WithStatus(posts, id, status)
  {
    FirstIndexOnlyIds(posts, WithStatus(posts, id, status), id);
  }

  // ---------------------------------------------------------------------
  // Properties of deletion

  /** Deletion works post by post, so the remaining posts keep their relative
      order: deleting from a concatenation deletes from each part. */
  lemma {:induction false} WithoutAppend(a: seq<BlogPost>, b: seq<BlogPost>, id: string)
    ensures Without(a + b, id) == Without(a, id) + Without(b, id)
  {
    if |a| > 0 {
      assert (a + b)[1..] == a[1..] + b;
      WithoutAppend(a[1..], b, id);
    } else {
      assert a + b == b;
    }
  }

  /** Deleting an id no post has changes nothing. */
  lemma {:induction false} DeleteAbsent(posts: seq<BlogPost>, id: string)
    requires forall j :: 0 <= j < |posts| ==> posts[j].id != id
    ensures Without(posts, id) == posts
  {
    if |posts| > 0 {
      DeleteAbsent(posts[1..], id);
    }
  }

  /** Deleting twice is the same as deleting once. */
  lemma DeleteIdempotent(posts: seq<BlogPost>, id: string)
    ensures Without(Without(posts, id), id) == Without(posts, id)
  {
    var r := Without(posts, id);
    forall j | 0 <= j < |r| ensures r[j].id != id {
      assert r[j] in r;
    }
    DeleteAbsent(r, id);
  }

  /** Deletion removes every post with the id, not just one: the list shrinks
      by the number of matches. */
  lemma {:induction false} DeleteRemovesEveryMatch(posts: seq<BlogPost>, id: string)
    ensures |Without(posts, id)| == |posts| - Count(posts, id)
  {
    if |posts| > 0 {
      DeleteRemovesEveryMatch(posts[1..], id);
    }
  }

  // ---------------------------------------------------------------------
  // How the operations meet when ids collide

  /** A post just added at the front shadows any older post with the same id:
      lookup finds the new one. */
  lemma AddedPostIsFound(p: BlogPost, posts: seq<BlogPost>)
    ensures Find([p] + posts, p.id) == Some(p)
  {
  }

  /** A status update on the id of a post just added touches only that post:
      older posts with the same id keep their status. */
  lemma UpdateAfterAddTouchesNewest(p: BlogPost, posts: seq<BlogPost>, status: Status)
    ensures WithStatus([p] + posts, p.id, status) == [p.(status := status)] + posts
  {
  }

  /** Deleting the id of a post just added removes it together with every older
      post that shares its id. */
  lemma {:induction false} DeleteAfterAddRemovesAll(p: BlogPost, posts: seq<BlogPost>)
    ensures Without([p] + posts, p.id) == Without(posts, p.id)
    ensures |Without([p] + posts, p.id)| == |posts| - Count(posts, p.id)
  {
    WithoutAppend([p], posts, p.id);
    DeleteRemovesEveryMatch(posts, p.id);
  }
}

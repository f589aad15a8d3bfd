/** The write handlers: the admin panel's edits of the user list, the forum's
    post and comment additions and deletions, and the addition of a module.
    The clock readings the handlers take (`Date.now()` for ids, the ISO date
    for timestamps) are parameters. */
module Admin {
  import opened Types
  import opened Text
  import opened Filters
  import opened Progress

  function Credit(u: User, userId: string, amount: int): User {
    if u.id == userId then u.(credits := u.credits + amount) else u
  }

  /** `handleUpdateUserCredits`: every user with the id gains `amount`
      credits (a negative amount deducts); nothing is clamped. */
  function UpdateUserCredits(users: seq<User>, userId: string, amount: int): (r: seq<User>)
    ensures |r| == |users|
    ensures forall k :: 0 <= k < |r| ==>
              r[k].credits == users[k].credits + (if users[k].id == userId then amount else 0)
    ensures forall k :: 0 <= k < |r| ==> r[k].(credits := users[k].credits) == users[k]
  {
    seq(|users|, k requires 0 <= k < |users| => Credit(users[k], userId, amount))
  }

  /** Deducting what was granted restores the user list. */
  lemma CreditsInverse(users: seq<User>, userId: string, amount: int)
    ensures UpdateUserCredits(UpdateUserCredits(users, userId, amount), userId, -amount) == users
  {
  }

  /** Two grants to the same user add up. */
  lemma CreditsCompose(users: seq<User>, userId: string, a: int, b: int)
    ensures UpdateUserCredits(UpdateUserCredits(users, userId, a), userId, b)
         == UpdateUserCredits(users, userId, a + b)
  {
  }

  /** A deduction larger than the balance leaves a negative balance: the
      credits are not clamped at zero. */
  lemma CreditsNotClamped(users: seq<User>, userId: string, amount: int)
    ensures forall k :: 0 <= k < |users| && users[k].id == userId && users[k].credits + amount < 0 ==>
              UpdateUserCredits(users, userId, amount)[k].credits < 0
  {
  }

  function Flip(s: UserStatus): (r: UserStatus)
    ensures r != s
  {
    if s == Active then Suspended else Active
  }

  function FlipStatus(u: User, userId: string): User {
    if u.id == userId then u.(status := Flip(u.status)) else u
  }

  /** `handleToggleUserStatus`: every user with the id switches between
      Active and Suspended. */
  function ToggleUserStatus(users: seq<User>, userId: string): (r: seq<User>)
    ensures |r| == |users|
    ensures forall k :: 0 <= k < |r| ==> (r[k].status != users[k].status <==> users[k].id == userId)
    ensures forall k :: 0 <= k < |r| ==> r[k].(status := users[k].status) == users[k]
  {
    seq(|users|, k requires 0 <= k < |users| => FlipStatus(users[k], userId))
  }

  /** Suspending and reinstating (or the reverse) restores the user list. */
  lemma ToggleStatusTwice(users: seq<User>, userId: string)
    ensures ToggleUserStatus(ToggleUserStatus(users, userId), userId) == users
  {
  }

  /** The editing handlers never change who is in the list, nor its order. */
  lemma AdminKeepsIds(users: seq<User>, userId: string, amount: int)
    ensures forall k :: 0 <= k < |users| ==>
              UpdateUserCredits(users, userId, amount)[k].id == users[k].id
              && ToggleUserStatus(users, userId)[k].id == users[k].id
  {
  }

  /** `handleDeletePost`: the posts whose id differs, in order. */
  function DeletePost(posts: seq<ForumPost>, postId: string): (r: seq<ForumPost>)
    ensures forall k :: 0 <= k < |r| ==> r[k].id != postId && r[k] in posts
    ensures forall k :: 0 <= k < |posts| && posts[k].id != postId ==> posts[k] in r
    ensures SubsequenceOf(r, posts)
    ensures |r| + IdCount(posts, postId) == |posts|
  {
    FilterIsSubsequence(posts, (p: ForumPost) => p.id != postId);
    DeleteCount(posts, postId);
    Filter(posts, (p: ForumPost) => p.id != postId)
  }

  /** Exactly the posts carrying the id are dropped. */
  lemma {:induction false} DeleteCount(posts: seq<ForumPost>, postId: string)
    ensures |Filter(posts, (p: ForumPost) => p.id != postId)| + IdCount(posts, postId) == |posts|
  {
    if |posts| > 0 {
      DeleteCount(posts[1..], postId);
    }
  }

  /** Deleting twice removes nothing more. */
  lemma DeleteIdempotent(posts: seq<ForumPost>, postId: string)
    ensures DeletePost(DeletePost(posts, postId), postId) == DeletePost(posts, postId)
  {
    FilterIdempotent(posts, (p: ForumPost) => p.id != postId);
  }

  /** Deleting an id no post carries leaves the posts as they are. */
  lemma DeleteAbsent(posts: seq<ForumPost>, postId: string)
    requires forall k :: 0 <= k < |posts| ==> posts[k].id != postId
    ensures DeletePost(posts, postId) == posts
  {
    FilterKeepsAll(posts, (p: ForumPost) => p.id != postId);
  }

  /** The id `fp-${Date.now()}` of a post created at the given millisecond. */
  function PostId(now: nat): string {
    "fp-" + Dec(now)
  }

  /** The id `c-${Date.now()}` of a comment created at the given millisecond. */
  function CommentId(now: nat): string {
    "c-" + Dec(now)
  }

  /** Post ids and comment ids are both injective in the clock reading. */
  lemma IdsInjective(n1: nat, n2: nat)
    ensures PostId(n1) == PostId(n2) ==> n1 == n2
    ensures CommentId(n1) == CommentId(n2) ==> n1 == n2
  {
    if PostId(n1) == PostId(n2) {
      assert Dec(n1) == PostId(n1)[3..];
      assert Dec(n2) == PostId(n2)[3..];
      DecInjective(n1, n2);
    }
    if CommentId(n1) == CommentId(n2) {
      assert Dec(n1) == CommentId(n1)[2..];
      assert Dec(n2) == CommentId(n2)[2..];
      DecInjective(n1, n2);
    }
  }

  /** `new Date().toISOString().slice(0, 16).replace('T', ' ')`, given the
      ISO text of the clock reading: its first sixteen characters with the
      first 'T' among them turned into a space. */
  function Stamp(iso: string): (r: string)
    ensures |r| == if |iso| <= 16 then |iso| else 16
    ensures forall k :: 0 <= k < |r| ==>
              r[k] == (if iso[k] == 'T' && 'T' !in iso[..k] then ' ' else iso[k])
  {
    var p := Prefix(iso, 16);
    assert forall k :: 0 <= k < |p| ==> p[..k] == iso[..k];
    ReplaceFirst(p, 'T', ' ')
  }

  /** An ISO date and time (`YYYY-MM-DDTHH:mm…`) becomes date, space, hours
      and minutes. */
  lemma StampOfIsoDate(iso: string)
    requires |iso| >= 16 && iso[10] == 'T' && 'T' !in iso[..10]
    ensures Stamp(iso) == iso[..10] + " " + iso[11..16]
  {
    var r := Stamp(iso);
    forall k | 0 <= k < 16 ensures r[k] == (iso[..10] + " " + iso[11..16])[k] {
      if k > 10 {
        assert iso[..10] <= iso[..k];
        assert iso[..k][10] == 'T';
      } else if k < 10 {
        assert iso[k] == iso[..10][k];
      }
    }
  }

  /** The post a draft becomes. */
  function NewPost(draft: ForumPostDraft, now: nat, iso: string): ForumPost {
    ForumPost(PostId(now), draft.title, draft.author, draft.content, draft.category, Stamp(iso), [])
  }

  /** `handleAddForumPost`: the new post goes to the front. */
  function AddForumPost(posts: seq<ForumPost>, draft: ForumPostDraft, now: nat, iso: string): (r: seq<ForumPost>)
    ensures |r| == |posts| + 1
    ensures r[1..] == posts
    ensures r[0].id == PostId(now) && r[0].comments == []
    ensures r[0].title == draft.title && r[0].author == draft.author
    ensures r[0].content == draft.content && r[0].category == draft.category
    ensures r[0].timestamp == Stamp(iso)
  {
    [NewPost(draft, now, iso)] + posts
  }

  /** Deleting a freshly added post undoes the addition. */
  lemma DeleteUndoesAdd(posts: seq<ForumPost>, draft: ForumPostDraft, now: nat, iso: string)
    requires forall k :: 0 <= k < |posts| ==> posts[k].id != PostId(now)
    ensures DeletePost(AddForumPost(posts, draft, now, iso), PostId(now)) == posts
  {
    var p := (q: ForumPost) => q.id != PostId(now);
    var added := AddForumPost(posts, draft, now, iso);
    assert added == [NewPost(draft, now, iso)] + posts;
    FilterAppend([NewPost(draft, now, iso)], posts, p);
    assert [NewPost(draft, now, iso)][1..] == [];
    DeleteAbsent(posts, PostId(now));
  }

  /** Two posts added within the same millisecond share an id, and deleting
      one deletes both. */
  lemma SameMillisecondDeletesBoth(posts: seq<ForumPost>, d1: ForumPostDraft, d2: ForumPostDraft, now: nat, iso: string)
    ensures var twice := AddForumPost(AddForumPost(posts, d1, now, iso), d2, now, iso);
            twice[0].id == twice[1].id
            && |DeletePost(twice, PostId(now))| <= |posts|
  {
    var twice := AddForumPost(AddForumPost(posts, d1, now, iso), d2, now, iso);
    var p := (q: ForumPost) => q.id != PostId(now);
    assert twice == [twice[0], twice[1]] + posts;
    FilterAppend([twice[0], twice[1]], posts, p);
    assert [twice[0], twice[1]][1..] == [twice[1]];
    assert [twice[1]][1..] == [];
  }

  /** The comment a reply becomes; its author is always the current
      operative. */
  function NewComment(text: string, now: nat, iso: string): ForumComment {
    ForumComment(CommentId(now), "OPERATIVE_YOU", text, Stamp(iso))
  }

  function Reply(post: ForumPost, postId: string, c: ForumComment): ForumPost {
    if post.id == postId then post.(comments := post.comments + [c]) else post
  }

  /** `handleAddForumComment`: every post with the id gets a comment at the
      end of its thread. The clock is read inside the per-post callback, so
      the post at position k is stamped with the readings `now(k)` and
      `iso(k)` taken at that position. */
  function AddForumComment(posts: seq<ForumPost>, postId: string, text: string,
                           now: nat -> nat, iso: nat -> string): (r: seq<ForumPost>)
    ensures |r| == |posts|
    ensures forall k :: 0 <= k < |r| ==> r[k].(comments := posts[k].comments) == posts[k]
    ensures forall k :: 0 <= k < |r| ==>
              |r[k].comments| == |posts[k].comments| + (if posts[k].id == postId then 1 else 0)
    ensures forall k :: 0 <= k < |r| ==> r[k].comments[..|posts[k].comments|] == posts[k].comments
    ensures forall k :: 0 <= k < |r| && posts[k].id == postId ==>
              r[k].comments[|posts[k].comments|] == NewComment(text, now(k), iso(k))
  {
    seq(|posts|, k requires 0 <= k < |posts| => ReplyAt(posts, postId, text, now, iso, k))
  }

  /** The post at position k after the reply, with that position's readings. */
  function ReplyAt(posts: seq<ForumPost>, postId: string, text: string,
                   now: nat -> nat, iso: nat -> string, k: nat): ForumPost
    requires k < |posts|
  {
    Reply(posts[k], postId, NewComment(text, now(k), iso(k)))
  }

  /** Two posts sharing an id, replied to at different milliseconds, get
      comments with different ids. */
  lemma DuplicateIdsGetOwnReadings(posts: seq<ForumPost>, a: nat, b: nat, text: string,
                                   now: nat -> nat, iso: nat -> string)
    requires a < b < |posts| && posts[a].id == posts[b].id
    requires now(a) != now(b)
    ensures var r := AddForumComment(posts, posts[a].id, text, now, iso);
            r[a].comments[|posts[a].comments|].id != r[b].comments[|posts[b].comments|].id
  {
    IdsInjective(now(a), now(b));
  }

  /** Number of comments over all posts. */
  function TotalComments(posts: seq<ForumPost>): nat {
    if |posts| == 0 then 0 else |posts[0].comments| + TotalComments(posts[1..])
  }

  /** Number of posts carrying an id. */
  function IdCount(posts: seq<ForumPost>, postId: string): (c: nat)
    ensures c <= |posts|
  {
    if |posts| == 0 then 0 else (if posts[0].id == postId then 1 else 0) + IdCount(posts[1..], postId)
  }

  /** A reply adds one comment per post carrying the id. */
  lemma {:induction false} CommentsGrowByMatches(posts: seq<ForumPost>, postId: string, text: string,
                                                 now: nat -> nat, iso: nat -> string)
    ensures TotalComments(AddForumComment(posts, postId, text, now, iso))
         == TotalComments(posts) + IdCount(posts, postId)
  {
    if |posts| > 0 {
      var now', iso' := (k: nat) => now(k + 1), (k: nat) => iso(k + 1);
      var r := AddForumComment(posts, postId, text, now, iso);
      assert r[1..] == AddForumComment(posts[1..], postId, text, now', iso');
      CommentsGrowByMatches(posts[1..], postId, text, now', iso');
    }
  }

  /** Post ids are pairwise distinct. */
  predicate DistinctPostIds(posts: seq<ForumPost>) {
    forall a, b :: 0 <= a < b < |posts| ==> posts[a].id != posts[b].id
  }

  lemma {:induction false} IdCountDistinct(posts: seq<ForumPost>, j: nat)
    requires DistinctPostIds(posts) && j < |posts|
    ensures IdCount(posts, posts[j].id) == 1
  {
    var rest := posts[1..];
    assert DistinctPostIds(rest) by {
      forall a, b | 0 <= a < b < |rest| ensures rest[a].id != rest[b].id {
        assert rest[a] == posts[a + 1] && rest[b] == posts[b + 1];
      }
    }
    if j == 0 {
      IdCountAbsent(rest, posts[0].id);
    } else {
      assert rest[j - 1] == posts[j];
      IdCountDistinct(rest, j - 1);
    }
  }

  lemma {:induction false} IdCountAbsent(posts: seq<ForumPost>, postId: string)
    requires forall k :: 0 <= k < |posts| ==> posts[k].id != postId
    ensures IdCount(posts, postId) == 0
  {
    if |posts| > 0 {
      IdCountAbsent(posts[1..], postId);
    }
  }

  /** With distinct post ids, replying to an existing post adds exactly one
      comment to the forum. */
  lemma ReplyAddsOne(posts: seq<ForumPost>, j: nat, text: string, now: nat -> nat, iso: nat -> string)
    requires DistinctPostIds(posts) && j < |posts|
    ensures TotalComments(AddForumComment(posts, posts[j].id, text, now, iso)) == TotalComments(posts) + 1
  {
    CommentsGrowByMatches(posts, posts[j].id, text, now, iso);
    IdCountDistinct(posts, j);
  }

  /** `handleAddModule`: the module goes to the end of the catalog. */
  function AddModule(ms: seq<Module>, m: Module): (r: seq<Module>)
    ensures |r| == |ms| + 1 && r[..|ms|] == ms && r[|ms|] == m
  {
    ms + [m]
  }

  /** An added module's labs join the total, and its completed labs (if the
      flags already mark any) join the credits. */
  lemma AddModuleTotals(ms: seq<Module>, m: Module, flags: Flags)
    ensures TotalLabs(AddModule(ms, m)) == TotalLabs(ms) + |m.labs|
    ensures TotalCredits(AddModule(ms, m), flags) == TotalCredits(ms, flags) + 10 * CompletedInModule(m, flags)
  {
    assert AddModule(ms, m)[..|ms|] == ms;
  }

  /** A module with a fresh id keeps the catalog's ids distinct. */
  lemma AddModuleKeepsDistinct(ms: seq<Module>, m: Module)
    requires DistinctIds(ms)
    requires forall k :: 0 <= k < |ms| ==> ms[k].id != m.id
    ensures DistinctIds(AddModule(ms, m))
  {
  }
}

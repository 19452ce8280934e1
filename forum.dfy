/** The forum documents channels.json, posts.json and comments.json, and the
    comment box of the single-post page. */
module Forum {
  import opened Records
  import Text

  const ChannelExists := "Channel already exists!"
  const ChannelCreated := "Channel created!"

  class ChannelStore {
    var channels: map<string, Channel>

    constructor (doc: map<string, Channel>)
      ensures channels == doc
    {
      channels := doc;
    }

    /** `create_channel`: adds the channel only when the name is free. */
    method CreateChannel(name: string, description: string, creator: string, now: string)
      returns (ok: bool, msg: string)
      modifies this
      ensures ok <==> name !in old(channels)
      ensures ok ==> channels == old(channels)[name := Channel(description, creator, now)]
                     && msg == ChannelCreated
      ensures !ok ==> channels == old(channels) && msg == ChannelExists
      ensures channels.Keys == old(channels).Keys + {name}
      ensures forall n :: n in old(channels) ==> n in channels && channels[n] == old(channels)[n]
    {
      if name in channels {
        return false, ChannelExists;
      }
      channels := channels[name := Channel(description, creator, now)];
      ok, msg := true, ChannelCreated;
    }
  }

  /** An entry of `posts.items()`. */
  type Item = (string, Post)

  /** The entries of a document whose keys, in insertion order, are `ids`. */
  function ItemsOf(ids: seq<string>, posts: map<string, Post>): (r: seq<Item>)
    requires forall id :: id in ids ==> id in posts
    ensures |r| == |ids|
    ensures forall i :: 0 <= i < |ids| ==> r[i] == (ids[i], posts[ids[i]])
  {
    if ids == [] then [] else [(ids[0], posts[ids[0]])] + ItemsOf(ids[1..], posts)
  }

  /** Inserting a fresh key appends its entry and leaves the others as they were. */
  lemma ItemsOfInsertFresh(ids: seq<string>, posts: map<string, Post>, id: string, p: Post)
    requires forall k :: k in ids ==> k in posts
    requires id !in ids
    ensures ItemsOf(ids + [id], posts[id := p]) == ItemsOf(ids, posts) + [(id, p)]
  {
  }

  /** A document has as many entries as its distinct keys. */
  lemma {:induction false} DistinctKeysCount(ids: seq<string>, posts: map<string, Post>)
    requires forall i, j :: 0 <= i < j < |ids| ==> ids[i] != ids[j]
    requires forall id :: id in posts <==> id in ids
    ensures |posts| == |ids|
  {
    if ids != [] {
      var rest := posts - {ids[0]};
      forall id
        ensures id in rest <==> id in ids[1..]
      {
        if id in ids && id != ids[0] {
          var k :| 0 <= k < |ids| && ids[k] == id;
          assert ids[1..][k - 1] == id;
        }
      }
      DistinctKeysCount(ids[1..], rest);
    }
  }

  class PostStore {
    /** The document's keys in insertion order (a Python dict keeps it). */
    var ids: seq<string>
    var posts: map<string, Post>

    ghost predicate Valid()
      reads this
    {
      && (forall i, j :: 0 <= i < j < |ids| ==> ids[i] != ids[j])
      && (forall id :: id in posts <==> id in ids)
    }

    /** The document as loaded: its keys in their stored order, and its entries. */
    constructor (keys: seq<string>, doc: map<string, Post>)
      requires forall i, j :: 0 <= i < j < |keys| ==> keys[i] != keys[j]
      requires forall id :: id in doc <==> id in keys
      ensures Valid() && ids == keys && posts == doc
    {
      ids, posts := keys, doc;
    }

    /** `posts.items()`, in insertion order. */
    function Items(): (r: seq<Item>)
      reads this
      requires Valid()
      ensures |r| == |ids| == |posts|
      ensures forall i :: 0 <= i < |r| ==> r[i].0 == ids[i] && r[i].0 in posts && r[i].1 == posts[ids[i]]
    {
      DistinctKeysCount(ids, posts);
      ItemsOf(ids, posts)
    }

    /** `create_post`: always succeeds and stores the post under the fresh id
        (the channel is not checked). */
    method CreatePost(channel: string, author: string, title: string, text: string,
                      tags: seq<string>, media: Option<string>, postId: string, now: string)
      returns (ok: bool, id: string)
      requires Valid()
      requires postId !in posts
      modifies this
      ensures Valid()
      ensures ok && id == postId
      ensures posts == old(posts)[postId := Post(channel, author, title, text, tags, media, Some(now))]
      ensures ids == old(ids) + [postId]
      ensures Items() == old(Items()) + [(postId, Post(channel, author, title, text, tags, media, Some(now)))]
    {
      var p := Post(channel, author, title, text, tags, media, Some(now));
      ItemsOfInsertFresh(ids, posts, postId, p);
      ids, posts := ids + [postId], posts[postId := p];
      ok, id := true, postId;
    }
  }

  /** `comments.get(post_id, [])`. */
  function CommentsOf(doc: map<string, seq<Comment>>, postId: string): seq<Comment>
  {
    if postId in doc then doc[postId] else []
  }

  class CommentStore {
    var comments: map<string, seq<Comment>>

    constructor (doc: map<string, seq<Comment>>)
      ensures comments == doc
    {
      comments := doc;
    }

    /** `add_comment`: appends to the post's list, creating it when absent;
        neither the post nor the text is checked. */
    method AddComment(postId: string, author: string, text: string, commentId: string, now: string)
      returns (ok: bool)
      modifies this
      ensures ok
      ensures comments == old(comments)[postId := CommentsOf(old(comments), postId) + [Comment(commentId, author, text, now)]]
      ensures postId in comments
      ensures comments[postId] == CommentsOf(old(comments), postId) + [Comment(commentId, author, text, now)]
      ensures comments.Keys == old(comments).Keys + {postId}
      ensures forall p :: p in old(comments) && p != postId ==> comments[p] == old(comments)[p]
    {
      if postId !in comments {
        comments := comments[postId := []];
      }
      comments := comments[postId := comments[postId] + [Comment(commentId, author, text, now)]];
      assert comments == old(comments)[postId := CommentsOf(old(comments), postId) + [Comment(commentId, author, text, now)]];
      ok := true;
    }
  }

  datatype ViewOutcome = PostNotFound | EmptyComment | CommentAdded

  /** The "Post Comment" button of `view_post_page`: the page only offers it
      for a known post, and it adds the comment only when the text is not
      blank. */
  method SubmitViewComment(store: PostStore, comments: CommentStore, viewPostId: Option<string>,
                           author: string, text: string, commentId: string, now: string)
    returns (outcome: ViewOutcome)
    modifies comments
    ensures outcome == PostNotFound <==>
              viewPostId.None? || viewPostId.value == "" || viewPostId.value !in store.posts
    ensures outcome == EmptyComment <==>
              outcome != PostNotFound && Text.Blank(text)
    ensures outcome == CommentAdded ==>
              comments.comments == old(comments.comments)[viewPostId.value :=
                CommentsOf(old(comments.comments), viewPostId.value) + [Comment(commentId, author, text, now)]]
    ensures outcome != CommentAdded ==> comments.comments == old(comments.comments)
  {
    if viewPostId.None? || viewPostId.value == "" || viewPostId.value !in store.posts {
      return PostNotFound;
    }
    var stripped := Text.Strip(text);
    Text.StripEmptyIffBlank(text);
    if stripped == [] {
      return EmptyComment;
    }
    var _ := comments.AddComment(viewPostId.value, author, text, commentId, now);
    outcome := CommentAdded;
  }
}

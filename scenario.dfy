/** A client of the stores that uses only their contracts: two sign-ups
    under one name, a login, a channel, a post in it and a comment on the
    post, as the forum's screens would issue them on empty documents. */
module Scenario {
  import opened Records
  import Accounts
  import Forum

  method EndToEnd(postId: string, commentId: string, now: string)
    returns (first: bool, second: bool, login: bool, channel: bool, id: string, count: nat)
    ensures first && !second && login && channel
    ensures id == postId
    ensures count == 1
  {
    var users := new Accounts.UserStore(map[]);
    var msg;
    first, msg := users.Signup("alice", "p1");
    second, msg := users.Signup("alice", "p2");
    login := users.Login("alice", "p1");

    var channels := new Forum.ChannelStore(map[]);
    channel, msg := channels.CreateChannel("news", "desc", "alice", now);

    var posts := new Forum.PostStore([], map[]);
    var ok;
    ok, id := posts.CreatePost("news", "alice", "Hi", "body", ["x"], None, postId, now);

    var comments := new Forum.CommentStore(map[]);
    ok := comments.AddComment(id, "alice", "nice", commentId, now);
    count := |Forum.CommentsOf(comments.comments, id)|;
  }
}

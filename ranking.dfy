/** The two orders in which the forum lists posts: the feed (newest entry of
    posts.json first) and the trending rank (most comments first, then the
    greater `created` string). */
module Ranking {
  import opened Records
  import opened Forum
  import Text

  /** `score(pid, post)`: the comment count and the `created` string,
      "" when the key is missing. */
  datatype Score = Score(comments: nat, created: string)

  function ScoreOf(doc: map<string, seq<Comment>>, item: Item): Score
  {
    Score(|CommentsOf(doc, item.0)|, match item.1.created case Some(t) => t case None => "")
  }

  /** Python's `<` on the pair (int, str): lexicographic. */
  predicate ScoreLess(a: Score, b: Score)
  {
    a.comments < b.comments || (a.comments == b.comments && Text.StrLess(a.created, b.created))
  }

  lemma ScoreLessIrreflexive(a: Score)
    ensures !ScoreLess(a, a)
  {
    Text.StrLessIrreflexive(a.created);
  }

  /** Greater-or-equal on scores is transitive. */
  lemma NotLessTransitive(a: Score, b: Score, c: Score)
    requires !ScoreLess(a, b) && !ScoreLess(b, c)
    ensures !ScoreLess(a, c)
  {
    Text.StrLessTrichotomy(a.created, b.created);
    Text.StrLessTrichotomy(b.created, c.created);
    if ScoreLess(a, c) {
      if a.comments == c.comments {
        Text.StrLessTransitive(c.created, b.created, a.created);
        Text.StrLessTransitive(a.created, c.created, b.created);
        Text.StrLessIrreflexive(a.created);
      }
    }
  }

  lemma ScoreLessAsymmetric(a: Score, b: Score)
    requires ScoreLess(a, b)
    ensures !ScoreLess(b, a)
  {
    if a.comments == b.comments && Text.StrLess(b.created, a.created) {
      Text.StrLessTransitive(a.created, b.created, a.created);
      Text.StrLessIrreflexive(a.created);
    }
  }

  /** No entry scores below a later one. */
  ghost predicate Descending(doc: map<string, seq<Comment>>, s: seq<Item>)
  {
    forall i, j :: 0 <= i < j < |s| ==> !ScoreLess(ScoreOf(doc, s[i]), ScoreOf(doc, s[j]))
  }

  /** Places `x` after the entries that score above it and before the rest,
      so that it precedes the equal-scoring entries that followed it in the
      input: this is what keeps `sorted(..., reverse=True)` stable. */
  function Insert(doc: map<string, seq<Comment>>, x: Item, s: seq<Item>): (r: seq<Item>)
    ensures multiset(r) == multiset(s) + multiset{x}
  {
    if s == [] then [x]
    else
      assert s == [s[0]] + s[1..];
      if ScoreLess(ScoreOf(doc, x), ScoreOf(doc, s[0])) then [s[0]] + Insert(doc, x, s[1..])
      else [x] + s
  }

  /** `sorted(posts.items(), key=score, reverse=True)`: the same entries,
      counted with multiplicity. */
  function Trending(doc: map<string, seq<Comment>>, items: seq<Item>): (r: seq<Item>)
    ensures multiset(r) == multiset(items)
  {
    if items == [] then []
    else
      assert items == [items[0]] + items[1..];
      Insert(doc, items[0], Trending(doc, items[1..]))
  }

  /** The entries of `Insert(doc, x, s)` are `x` and those of `s`. */
  lemma InsertMembers(doc: map<string, seq<Comment>>, x: Item, s: seq<Item>)
    ensures forall z :: z in Insert(doc, x, s) <==> z == x || z in s
  {
    var r := Insert(doc, x, s);
    forall z
      ensures z in r <==> z == x || z in s
    {
      assert z in r <==> z in multiset(r);
      assert z in s <==> z in multiset(s);
    }
  }

  lemma DescendingCons(doc: map<string, seq<Comment>>, y: Item, t: seq<Item>)
    requires Descending(doc, t)
    requires forall z :: z in t ==> !ScoreLess(ScoreOf(doc, y), ScoreOf(doc, z))
    ensures Descending(doc, [y] + t)
  {
    var r := [y] + t;
    forall i, j | 0 <= i < j < |r|
      ensures !ScoreLess(ScoreOf(doc, r[i]), ScoreOf(doc, r[j]))
    {
      assert r[j] == t[j - 1];
      if i > 0 {
        assert r[i] == t[i - 1];
      }
    }
  }

  lemma {:induction false} InsertDescending(doc: map<string, seq<Comment>>, x: Item, s: seq<Item>)
    requires Descending(doc, s)
    ensures Descending(doc, Insert(doc, x, s))
  {
    if s == [] {
      assert Insert(doc, x, s) == [x];
    } else if ScoreLess(ScoreOf(doc, x), ScoreOf(doc, s[0])) {
      var t := Insert(doc, x, s[1..]);
      assert Descending(doc, s[1..]) by {
        forall i, j | 0 <= i < j < |s[1..]|
          ensures !ScoreLess(ScoreOf(doc, s[1..][i]), ScoreOf(doc, s[1..][j]))
        {
          assert s[1..][i] == s[i + 1] && s[1..][j] == s[j + 1];
        }
      }
      InsertDescending(doc, x, s[1..]);
      InsertMembers(doc, x, s[1..]);
      ScoreLessAsymmetric(ScoreOf(doc, x), ScoreOf(doc, s[0]));
      forall z | z in t
        ensures !ScoreLess(ScoreOf(doc, s[0]), ScoreOf(doc, z))
      {
        if z != x {
          var k :| 0 <= k < |s[1..]| && s[1..][k] == z;
          assert s[k + 1] == z;
        }
      }
      DescendingCons(doc, s[0], t);
    } else {
      forall z | z in s
        ensures !ScoreLess(ScoreOf(doc, x), ScoreOf(doc, z))
      {
        var k :| 0 <= k < |s| && s[k] == z;
        if k > 0 {
          NotLessTransitive(ScoreOf(doc, x), ScoreOf(doc, s[0]), ScoreOf(doc, z));
        }
      }
      DescendingCons(doc, x, s);
    }
  }

  /** Every entry of the trending list scores at least as high as every
      entry after it. */
  lemma {:induction false} TrendingDescending(doc: map<string, seq<Comment>>, items: seq<Item>)
    ensures Descending(doc, Trending(doc, items))
  {
    if items != [] {
      TrendingDescending(doc, items[1..]);
      InsertDescending(doc, items[0], Trending(doc, items[1..]));
    }
  }

  /** Of an entry list, the entries whose score is `k`, in their order. */
  function WithScore(doc: map<string, seq<Comment>>, s: seq<Item>, k: Score): (r: seq<Item>)
  {
    if s == [] then []
    else (if ScoreOf(doc, s[0]) == k then [s[0]] else []) + WithScore(doc, s[1..], k)
  }

  /** Filtering a list by score, one entry at a time from the front. */
  lemma WithScoreCons(doc: map<string, seq<Comment>>, y: Item, t: seq<Item>, k: Score)
    ensures WithScore(doc, [y] + t, k) == (if ScoreOf(doc, y) == k then [y] else []) + WithScore(doc, t, k)
  {
    assert ([y] + t)[0] == y && ([y] + t)[1..] == t;
  }

  /** Two adjacent entries of different scores can trade places in a score filter. */
  lemma WithScoreSwap(doc: map<string, seq<Comment>>, a: Item, b: Item, t: seq<Item>, k: Score)
    requires ScoreOf(doc, a) != ScoreOf(doc, b)
    ensures (if ScoreOf(doc, a) == k then [a] else []) + ((if ScoreOf(doc, b) == k then [b] else []) + t)
         == (if ScoreOf(doc, b) == k then [b] else []) + ((if ScoreOf(doc, a) == k then [a] else []) + t)
  {
  }

  lemma {:induction false} InsertWithScore(doc: map<string, seq<Comment>>, x: Item, s: seq<Item>, k: Score)
    ensures WithScore(doc, Insert(doc, x, s), k)
         == (if ScoreOf(doc, x) == k then [x] else []) + WithScore(doc, s, k)
  {
    if s == [] {
      WithScoreCons(doc, x, [], k);
    } else if ScoreLess(ScoreOf(doc, x), ScoreOf(doc, s[0])) {
      var t := Insert(doc, x, s[1..]);
      assert Insert(doc, x, s) == [s[0]] + t;
      WithScoreCons(doc, s[0], t, k);
      InsertWithScore(doc, x, s[1..], k);
      assert s == [s[0]] + s[1..];
      WithScoreCons(doc, s[0], s[1..], k);
      ScoreLessIrreflexive(ScoreOf(doc, x));
      WithScoreSwap(doc, x, s[0], WithScore(doc, s[1..], k), k);
    } else {
      assert Insert(doc, x, s) == [x] + s;
      WithScoreCons(doc, x, s, k);
    }
  }

  /** Stability: among entries with the same score, the trending list keeps
      the order they have in `posts.items()`. */
  lemma {:induction false} TrendingStable(doc: map<string, seq<Comment>>, items: seq<Item>, k: Score)
    ensures WithScore(doc, Trending(doc, items), k) == WithScore(doc, items, k)
  {
    if items != [] {
      TrendingStable(doc, items[1..], k);
      InsertWithScore(doc, items[0], Trending(doc, items[1..]), k);
    }
  }

  /** A post that scores strictly higher is listed strictly earlier; in
      particular more comments always come first, and with equal counts
      the greater `created` string comes first. */
  lemma TrendingHigherFirst(doc: map<string, seq<Comment>>, items: seq<Item>, i: nat, j: nat)
    requires i < |Trending(doc, items)| && j < |Trending(doc, items)|
    requires ScoreLess(ScoreOf(doc, Trending(doc, items)[j]), ScoreOf(doc, Trending(doc, items)[i]))
    ensures i < j
  {
    TrendingDescending(doc, items);
    if j == i {
      ScoreLessIrreflexive(ScoreOf(doc, Trending(doc, items)[i]));
    }
  }

  /** `reversed(posts.items())`: walks the entries from the last inserted. */
  function Feed(items: seq<Item>): (r: seq<Item>)
    ensures |r| == |items|
    ensures forall k :: 0 <= k < |items| ==> r[k] == items[|items| - 1 - k]
  {
    if items == [] then [] else [items[|items| - 1]] + Feed(items[..|items| - 1])
  }

  /** The post just created heads the feed, above all the earlier ones in
      their previous order. */
  lemma FeedNewestFirst(items: seq<Item>, x: Item)
    ensures Feed(items + [x]) == [x] + Feed(items)
  {
    assert (items + [x])[..|items|] == items;
  }
}

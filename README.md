# Forum core of the "Mega App" (app.py), modelled in Dafny

`app.py` is a Streamlit application: accounts, a Reddit-style forum with channels, posts and comments, and an AI search box. Each forum document (users.json, channels.json, posts.json, comments.json) is loaded whole, changed in memory and written back. This project models what the program does with those documents, how it orders posts, and how the session's page state picks and changes the screen.

- `Records` (records.dfy): the channel, post and comment records.
- `Accounts` (accounts.dfy): `UserStore`, the users document as a `map` field. `Signup` changes it in place. `Login` is a predicate over it.
- `Forum` (forum.dfy): `ChannelStore`, `PostStore` and `CommentStore`, plus the guarded comment box of the single-post page. `PostStore` keeps its keys in insertion order, as a Python dict does, because the feed and the trending ties depend on that order.
- `Ranking` (ranking.dfy): the trending rank as a stable insertion sort. The feed is the reversed item list.
- `Text` (text.dfy): Python's ordering on `str` (by code point, a proper prefix first) and `str.strip()`. The `created` timestamps are compared as strings, and Dafny's own `<` on sequences means "proper prefix", so this order had to be defined.
- `Navigation` (navigation.dfy): the router `main` as a function of (`page`, `logged_in`). The session is a class whose button handlers change `page`, `logged_in`, `username` and `view_post_id`. `Valid()` is the invariant they keep: there is an identity exactly when signed in, and the page belongs to the current side of the sign-in.
- `Scenario` (scenario.dfy): a client. Two sign-ups under one name, a login, a channel, a post and a comment, each checked through the stores' contracts alone.

`datetime.now()` and `uuid.uuid4()` become parameters (`now`, `postId`, `commentId`). The post id must be fresh.

users.json maps each name to a plaintext password. There is no ban flag, and `login` checks none.

A post's trending score is its comment count and its `created` string. `Forum.CommentsOf` gives the comment list with `comments.get(pid, [])`, and `Ranking.ScoreOf` forms the pair, with "" for a missing `created`. The trending lemmas below state what follows from that score.

## Model

| member | source | states |
|---|---|---|
| Accounts.UserStore.Signup | app.py:53-59 | Succeeds exactly when the username is new; then maps it to the password, and `Login` holds for the pair. On a taken name returns the "already exists" message and leaves the document as it was. No existing entry ever changes; the key set grows by the name at most. |
| Accounts.UserStore.Login | app.py:62-66 | True exactly when the name is a key whose stored password equals the given one. The contracts that state this are those of `Navigation.Session.LoginPressed` (the result is this test) and `Accounts.UserStore.Signup` (it holds right after a successful sign-up). |
| Navigation.Session.LoginPressed | app.py:145-152 | Login succeeds exactly when `login` (app.py:62-66) holds: the name is a key and its stored password is the given one. On success the session is signed in under that name on the menu. On failure nothing changes. |
| Forum.ChannelStore.CreateChannel | app.py:71-83 | Succeeds exactly when the name is free; then adds that one key with the given description, creator and timestamp. Otherwise returns "Channel already exists!" and leaves the document unchanged. Existing channels are untouched. |
| Forum.PostStore.constructor | app.py:89 | Builds posts.json as loaded: its keys in stored order, no key twice, every key with its post. |
| Forum.ItemsOf | app.py:247 | Pairs each key, in the given order, with its post; the list is as long as the key list. |
| Forum.PostStore.Items | app.py:247 | `posts.items()`: one entry per post, in insertion order; each entry is an id with its stored post. |
| Forum.PostStore.CreatePost | app.py:88-103 | Always succeeds and returns the supplied fresh id. The document gains exactly that key, holding the given channel, author, title, text, tags, media and timestamp. Earlier posts are unchanged. The channel is not checked. The item list grows by the new entry at its end. |
| Forum.CommentStore.AddComment | app.py:108-121 | Always succeeds. The post's list (empty when absent) becomes one element longer, with the new comment last and the earlier ones unchanged. Other posts' lists are unchanged. Neither the post's existence nor the text is checked. |
| Forum.SubmitViewComment | app.py:360-394 | No comment box when the view id is missing, empty or not a post. Otherwise the comment is added exactly when the text is not all whitespace. A blank text is refused and leaves the comments document unchanged. |
| Text.StrLess | app.py:326-328 | Python's `<` on `str`: the first differing code point decides, and a proper prefix is smaller. Its order properties are the three lemmas below. |
| Text.StrLessIrreflexive | app.py:326-328 | No string sorts before itself under Python's string order. |
| Text.StrLessTransitive | app.py:326-328 | Python's string order is transitive. |
| Text.StrLessTrichotomy | app.py:326-328 | Any two strings are equal or ordered one way round, so ranking on them is total. |
| Text.PrefixIsLess | app.py:326-328 | A proper prefix sorts first, so a missing `created` ("") ranks below every present timestamp among equal comment counts. |
| Text.IsSpace | app.py:389 | The characters `str.isspace()` accepts: the ones `str.strip()` removes. |
| Text.StripLeading | app.py:389 | The result is a suffix of the input. Only whitespace was removed, and it starts with a non-space character. |
| Text.StripTrailing | app.py:389 | The result is a prefix of the input. Only whitespace was removed, and it ends with a non-space character. |
| Text.Strip | app.py:389 | The result is a slice of the input with only whitespace cut off at both ends, and no whitespace left at either end. |
| Text.StripEmptyIffBlank | app.py:389 | `new_c.strip()` is empty exactly when every character of the text is whitespace; the empty text is included. |
| Ranking.ScoreLess | app.py:326-328 | Python's `<` on the pair (comment count, created): fewer comments are smaller, and equal counts are decided by the string order. Its order properties are the three lemmas below. |
| Ranking.ScoreLessIrreflexive | app.py:326-328 | No score sorts before itself under Python's tuple comparison. |
| Ranking.ScoreLessAsymmetric | app.py:326-328 | Two scores are never each below the other. |
| Ranking.NotLessTransitive | app.py:326-328 | "Scores at least as high" is transitive on (comment count, created) pairs. |
| Ranking.Insert | app.py:328 | Inserting an entry into a list yields that list plus the entry, counted as a multiset. |
| Ranking.Trending | app.py:328 | The trending list is a permutation of the posts' items. |
| Ranking.InsertDescending | app.py:328 | Inserting into a list ordered from high score to low keeps it ordered. |
| Ranking.TrendingDescending | app.py:321-328 | No entry of the trending list scores below a later one. Order is lexicographic on (comment count, created), with a missing list counting 0 and a missing `created` counting as "". |
| Ranking.InsertWithScore | app.py:328 | Inserting places the new entry ahead of every equal-scoring entry already in the list. |
| Ranking.TrendingStable | app.py:328 | For every score, the trending entries with that score appear in the same relative order as in `posts.items()`. This is the stability of `sorted(..., reverse=True)`. |
| Ranking.TrendingHigherFirst | app.py:321-328 | A strictly higher-scoring post is listed strictly earlier. So more comments always come first, and among equal counts the greater `created` string comes first. |
| Ranking.Feed | app.py:247 | The feed has the same length as the item list, and its k-th entry is the k-th entry counted from the end of the insertion order. |
| Ranking.FeedNewestFirst | app.py:247 | Appending a post to the items puts it at the head of the feed. The earlier posts follow in their previous feed order. |
| Navigation.Route | app.py:404-425 | Signed out: "signup" shows the signup screen and every other page shows login. Signed in: login and signup are never shown, each known page shows its screen ("reddit" and "reddit_home" both the forum), and an unknown page falls back to the menu. |
| Navigation.ValidNeverFallsBack | app.py:411-425 | In every session state the handlers keep, a signed-in page is a known one. So the menu is shown only for the page "menu", never through the fallback. |
| Navigation.Session.constructor | app.py:128-135 | A new session shows the login page, signed out, with no username and no post chosen. |
| Navigation.Session.CreateAccountPressed | app.py:154-156 | Moves from login to the signup screen. Nothing else changes. |
| Navigation.Session.SignupPressed | app.py:167-174 | Runs `signup`. On success the user document gains the account and the page returns to login. On failure the document and the page both stay as they were. The session stays signed out either way. |
| Navigation.Session.BackToLoginPressed | app.py:176-178 | Moves from signup back to the login screen. Nothing else changes. |
| Navigation.Session.MenuOpen | app.py:188-193 | From the menu, opens the search page or the forum home. The identity is kept. |
| Navigation.Session.LogoutPressed | app.py:194-198 | Signs out, forgets the username and shows the login screen. |
| Navigation.Session.BackToMenuPressed | app.py:215-237 | "Back" on the search page and in the forum sidebar both return to the menu. The identity is kept. |
| Navigation.Session.ViewPostPressed | app.py:350-353 | "View Post" selects the post and shows the single-post screen. |
| Navigation.Session.BackToForumPressed | app.py:366-398 | "Back" on the single-post screen returns to the forum home, whether or not the post was found. |
| Scenario.EndToEnd | app.py:53-121 | On empty documents: the first "alice" signup succeeds and the second fails. "alice" then logs in with the first password. The channel is created. The post gets the supplied id, and the post's comment list has length 1 after one comment. |

## Left out

- File I/O in `load_json`/`save_json` (app.py:26-48) is out. That covers the temporary file with atomic rename, the JSON encoding, and recreating a missing or unparsable file with the default. Each store's constructor takes the document as it was loaded; the updated field is the document that would be saved.
- `uuid.uuid4()` and `datetime.now()` are nondeterministic library calls. They are parameters instead.
- Streamlit rendering and widgets are out, as are `st.rerun`, the sidebar radio and image display. Chains of reruns are out too: each handler is modelled as one transition.
- The Gemini call behind the search page (app.py:203-213) is an external network service.
- Concurrent writers to one document (last write wins) are out: the program has no concurrency logic.
- The order in which channels are listed (app.py:269-277, 297) is out: no modelled operation depends on it. The "No channels yet." guard of the post form (app.py:299-301) is a UI guard and is also out.
- Posts are assumed to carry every key except `created`. Of the readers in the core, only the trending score tolerates a missing key. The feed's `p["title"]` would raise on a missing key, and a non-string `created` would make the tuple comparison raise. Neither error path is modelled.
- Forum.PostStore.CreatePost: requires the id to be fresh. With a repeated uuid the program would overwrite the existing post where it stands; that case is not modelled.
- The feed's own comment box (app.py:261-264) calls `add_comment` with no blank-text check. It is exactly `Forum.CommentStore.AddComment`, so only the single-post page refuses blank comments.
- The second `elif page == "reddit"` branch of `main` (app.py:421) can never be reached, since the earlier branch at app.py:417 catches that page. `Navigation.Route` has the one branch.

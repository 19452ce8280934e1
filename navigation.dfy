/** The session state (`page`, `logged_in`, `username`, `view_post_id`), the
    router `main` that picks the screen from it, and the buttons of the
    screens that change it. */
module Navigation {
  import opened Records
  import Accounts

  datatype Screen = LoginScreen | SignupScreen | MenuScreen | SearchScreen | RedditHomeScreen | ViewPostScreen

  /** The pages a signed-in session can be routed to by name ("reddit" is an
      alias of "reddit_home"). */
  predicate KnownPage(page: string)
  {
    page == "menu" || page == "search" || page == "reddit_home" || page == "reddit" || page == "view_post"
  }

  /** `main`: signed out, only "signup" shows the signup screen; signed in,
      a known page shows its screen and any other page falls back to the menu. */
  function Route(page: string, loggedIn: bool): (s: Screen)
    ensures !loggedIn ==> (s == SignupScreen <==> page == "signup")
    ensures !loggedIn ==> s == SignupScreen || s == LoginScreen
    ensures loggedIn ==> s != LoginScreen && s != SignupScreen
    ensures loggedIn && page == "menu" ==> s == MenuScreen
    ensures loggedIn && page == "search" ==> s == SearchScreen
    ensures loggedIn && (page == "reddit_home" || page == "reddit") ==> s == RedditHomeScreen
    ensures loggedIn && page == "view_post" ==> s == ViewPostScreen
    ensures loggedIn && !KnownPage(page) ==> s == MenuScreen
  {
    if !loggedIn then
      if page == "signup" then SignupScreen else LoginScreen
    else if page == "menu" then MenuScreen
    else if page == "search" then SearchScreen
    else if page == "reddit_home" then RedditHomeScreen
    else if page == "reddit" then RedditHomeScreen
    else if page == "view_post" then ViewPostScreen
    else MenuScreen
  }

  class Session {
    var page: string
    var loggedIn: bool
    var username: Option<string>
    var viewPostId: Option<string>

    /** What the transitions below keep: an identity exactly when signed in,
        and a page that belongs to the current side of the sign-in. */
    ghost predicate Valid()
      reads this
    {
      && (loggedIn <==> username.Some?)
      && (!loggedIn ==> page == "login" || page == "signup")
      && (loggedIn ==> page == "menu" || page == "search" || page == "reddit_home" || page == "view_post")
    }

    /** The defaults set when `st.session_state` lacks the keys. */
    constructor ()
      ensures Valid()
      ensures page == "login" && !loggedIn && username == None && viewPostId == None
    {
      page, loggedIn, username, viewPostId := "login", false, None, None;
    }

    function Current(): (s: Screen)
      reads this
    {
      Route(page, loggedIn)
    }

    /** "Login" on the login screen. */
    method LoginPressed(users: Accounts.UserStore, name: string, password: string) returns (ok: bool)
      requires Valid() && Current() == LoginScreen
      modifies this
      ensures Valid()
      ensures ok == users.Login(name, password)
      ensures ok ==> loggedIn && username == Some(name) && page == "menu" && viewPostId == old(viewPostId)
      ensures ok ==> Current() == MenuScreen
      ensures !ok ==> unchanged(this)
    {
      ok := users.Login(name, password);
      if ok {
        loggedIn, username, page := true, Some(name), "menu";
      }
    }

    /** "Create Account" on the login screen. */
    method CreateAccountPressed()
      requires Valid() && Current() == LoginScreen
      modifies this
      ensures Valid()
      ensures page == "signup" && Current() == SignupScreen
      ensures loggedIn == old(loggedIn) && username == old(username) && viewPostId == old(viewPostId)
    {
      page := "signup";
    }

    /** "Create Account" on the signup screen: back to login on success. */
    method SignupPressed(users: Accounts.UserStore, name: string, password: string)
      returns (ok: bool, msg: string)
      requires Valid() && Current() == SignupScreen
      modifies this, users
      ensures Valid()
      ensures ok <==> name !in old(users.users)
      ensures msg == (if ok then Accounts.AccountCreated else Accounts.UsernameTaken)
      ensures ok ==> users.users == old(users.users)[name := password] && users.Login(name, password)
      ensures !ok ==> users.users == old(users.users)
      ensures page == (if ok then "login" else old(page))
      ensures loggedIn == old(loggedIn) && username == old(username) && viewPostId == old(viewPostId)
    {
      ok, msg := users.Signup(name, password);
      if ok {
        page := "login";
      }
    }

    /** "Back to Login" on the signup screen. */
    method BackToLoginPressed()
      requires Valid() && Current() == SignupScreen
      modifies this
      ensures Valid()
      ensures page == "login" && Current() == LoginScreen
      ensures loggedIn == old(loggedIn) && username == old(username) && viewPostId == old(viewPostId)
    {
      page := "login";
    }

    /** "Custom Search" (to == "search") or "Reddit" (to == "reddit_home") on the menu. */
    method MenuOpen(to: string)
      requires Valid() && Current() == MenuScreen
      requires to == "search" || to == "reddit_home"
      modifies this
      ensures Valid()
      ensures page == to
      ensures Current() == (if to == "search" then SearchScreen else RedditHomeScreen)
      ensures loggedIn == old(loggedIn) && username == old(username) && viewPostId == old(viewPostId)
    {
      page := to;
    }

    /** "Logout" on the menu: forgets the identity and returns to login. */
    method LogoutPressed()
      requires Valid() && Current() == MenuScreen
      modifies this
      ensures Valid()
      ensures !loggedIn && username == None && page == "login" && Current() == LoginScreen
      ensures viewPostId == old(viewPostId)
    {
      loggedIn, username, page := false, None, "login";
    }

    /** "Back" on the search screen, and "Back" in the forum's sidebar. */
    method BackToMenuPressed()
      requires Valid() && (Current() == SearchScreen || Current() == RedditHomeScreen)
      modifies this
      ensures Valid()
      ensures page == "menu" && Current() == MenuScreen
      ensures loggedIn == old(loggedIn) && username == old(username) && viewPostId == old(viewPostId)
    {
      page := "menu";
    }

    /** "View Post" on a trending entry. */
    method ViewPostPressed(postId: string)
      requires Valid() && Current() == RedditHomeScreen
      modifies this
      ensures Valid()
      ensures page == "view_post" && viewPostId == Some(postId) && Current() == ViewPostScreen
      ensures loggedIn == old(loggedIn) && username == old(username)
    {
      page, viewPostId := "view_post", Some(postId);
    }

    /** "Back" on the single-post screen, whether or not the post was found. */
    method BackToForumPressed()
      requires Valid() && Current() == ViewPostScreen
      modifies this
      ensures Valid()
      ensures page == "reddit_home" && Current() == RedditHomeScreen
      ensures loggedIn == old(loggedIn) && username == old(username) && viewPostId == old(viewPostId)
    {
      page := "reddit_home";
    }
  }

  /** In every state the transitions reach, a signed-in session names a page
      it knows, so the menu fallback of `main` is never taken from them. */
  lemma ValidNeverFallsBack(s: Session)
    requires s.Valid()
    ensures s.loggedIn ==> KnownPage(s.page) && (s.Current() == MenuScreen <==> s.page == "menu")
  {
  }
}

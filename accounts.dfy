/** The account document users.json: username -> plaintext password. */
module Accounts {

  const UsernameTaken := "Username already exists!"
  const AccountCreated := "Account created!"

  class UserStore {
    /** The document as loaded; an absent or unreadable file loads as `{}`. */
    var users: map<string, string>

    constructor (doc: map<string, string>)
      ensures users == doc
    {
      users := doc;
    }

    /** `login`: the user exists and the stored password is exactly the one given. */
    predicate Login(username: string, password: string)
      reads this
    {
      username in users && users[username] == password
    }

    /** `signup`: inserts the account only when the username is free. */
    method Signup(username: string, password: string) returns (ok: bool, msg: string)
      modifies this
      ensures ok <==> username !in old(users)
      ensures ok ==> users == old(users)[username := password] && msg == AccountCreated
      ensures !ok ==> users == old(users) && msg == UsernameTaken
      ensures users.Keys == old(users).Keys + {username}
      ensures forall u :: u in old(users) ==> u in users && users[u] == old(users)[u]
      ensures ok ==> Login(username, password)
    {
      if username in users {
        return false, UsernameTaken;
      }
      users := users[username := password];
      ok, msg := true, AccountCreated;
    }
  }
}

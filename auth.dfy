/** The client's session store, which the pages reach through `useAuth()`: the token and the user
    it belongs to, set together by `login` and cleared together by `logout`. Its persistence and
    the route guard around the pages are not part of this model. */
module Auth {
  import opened Common
  import opened Records

  class Session {
    var token: Option<string>
    var user: Option<User>

    /** A token is held exactly when a user is. */
    ghost predicate Valid()
      reads this
    {
      token.Some? <==> user.Some?
    }

    constructor ()
      ensures Valid() && token.None? && user.None?
    {
      token, user := None, None;
    }

    method Login(t: string, u: User)
      modifies this
      ensures Valid() && token == Some(t) && user == Some(u)
    {
      token, user := Some(t), Some(u);
    }

    method Logout()
      modifies this
      ensures Valid() && token.None? && user.None?
    {
      token, user := None, None;
    }
  }
}

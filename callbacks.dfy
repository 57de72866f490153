/** The `jwt` and `session` callbacks of the authentication options, which
    carry the role claim from the signed-in user into the token and from the
    token into every session the client reads. Both update their argument
    in place and hand it back. */
module Callbacks {
  import opened Wrappers
  import Auth
  import Navigation

  /** The session token: the standard claims plus the added role claim. */
  class Token {
    var sub: Option<string>
    var name: Option<string>
    var email: Option<string>
    var picture: Option<string>
    var role: Option<string>

    /** A token as the session library issues it, before any callback. */
    constructor (sub: Option<string>, name: Option<string>, email: Option<string>, picture: Option<string>)
      ensures this.sub == sub && this.name == name && this.email == email && this.picture == picture
      ensures role == None
    {
      this.sub, this.name, this.email, this.picture := sub, name, email, picture;
      role := None;
    }
  }

  /** The `user` object of a session, with the added id and role fields. */
  class SessionUser {
    var id: Option<string>
    var name: Option<string>
    var email: Option<string>
    var image: Option<string>
    var role: Option<string>

    constructor (name: Option<string>, email: Option<string>, image: Option<string>)
      ensures this.name == name && this.email == email && this.image == image
      ensures id == None && role == None
    {
      this.name, this.email, this.image := name, email, image;
      id, role := None, None;
    }
  }

  class Session {
    var user: SessionUser
    var expires: string

    constructor (user: SessionUser, expires: string)
      ensures this.user == user && this.expires == expires
    {
      this.user, this.expires := user, expires;
    }
  }

  /** When a user is given (at sign-in), its role becomes the token's role
      claim; otherwise the token is untouched. No other claim changes. */
  method Jwt(token: Token, user: Option<Auth.User>) returns (r: Token)
    modifies token
    ensures r == token
    ensures token.role == (if user.Some? then user.value.role else old(token.role))
    ensures token.sub == old(token.sub) && token.name == old(token.name)
    ensures token.email == old(token.email) && token.picture == old(token.picture)
  {
    if user.Some? {
      token.role := user.value.role;
    }
    r := token;
  }

  /** When a token is given, the session user takes the token's subject as
      its id and the token's role claim as its role; name, email, image and
      the rest of the session are untouched. */
  method SessionCallback(session: Session, token: Token?) returns (r: Session)
    modifies session.user
    ensures r == session && session.user == old(session.user)
    ensures token != null ==> session.user.id == token.sub && session.user.role == token.role
    ensures token == null ==> session.user.id == old(session.user.id) && session.user.role == old(session.user.role)
    ensures session.user.name == old(session.user.name) && session.user.email == old(session.user.email)
    ensures session.user.image == old(session.user.image)
  {
    if token != null {
      session.user.id := token.sub;
      session.user.role := token.role;
    }
    r := session;
  }

  /** A credentials sign-in followed by a session read: when `authorize`
      accepts, the token and then the session carry the role ADMIN, so the
      sidebar shows the administrator's items, and the session id is the
      subject the token was issued with; no other claim of the token and no
      other field of the session user changes. When it refuses, neither
      callback runs and nothing changes. */
  method SignIn(credentials: Option<Auth.Credentials>, token: Token, session: Session)
    returns (user: Option<Auth.User>)
    modifies token, session.user
    ensures user == Auth.Authorize(credentials)
    ensures user.Some? ==> token.role == Some("ADMIN") && session.user.role == Some("ADMIN")
    ensures user.Some? ==> session.user.id == token.sub && session.user.id == old(token.sub)
    ensures token.sub == old(token.sub) && token.name == old(token.name)
    ensures token.email == old(token.email) && token.picture == old(token.picture)
    ensures session.user.name == old(session.user.name) && session.user.email == old(session.user.email)
    ensures session.user.image == old(session.user.image)
    ensures user.Some? ==>
              Navigation.NavigationItems(session.user.role) ==
              Navigation.BaseItems() + Navigation.RoleItems(Navigation.Admin)
    ensures user.None? ==> unchanged(token) && unchanged(session.user)
  {
    user := Auth.Authorize(credentials);
    if user.Some? {
      var t := Jwt(token, user);
      var s := SessionCallback(session, t);
    }
  }
}

/**
 * The session holder (src/app/account.service.ts): the `jwt` cookie, the replay-1
 * cell of the current user's claims, the status probe that refreshes it, login,
 * logout, and the endpoint URLs, which address a named user or `me`.
 */
module Account {
  import opened Wrappers
  import opened Strings
  import opened Dtos
  import opened Http

  /** The decoded JWT payload; decoding is a foreign library, so claims arrive as an input. */
  type Claims = map<string, string>

  /** JavaScript truthiness of an optional string: undefined, null and "" are falsy. */
  predicate Truthy(s: Option<string>) {
    s.Some? && s.value != ""
  }

  /** The user an account URL addresses: the given username, or `me`. */
  function Segment(username: Option<string>): string {
    if Truthy(username) then username.value else "me"
  }

  /** `/account/{username}/{tail}` when a username is given, `/account/me/{tail}` otherwise. */
  function AccountPath(username: Option<string>, tail: string): string {
    if Truthy(username) then "/account/" + username.value + "/" + tail
    else "/account/me/" + tail
  }

  /** Reads an account URL back into its path segments after `/account/`; `None` for any other URL. */
  function PathOf(url: string): Option<seq<string>> {
    if |url| >= 9 && url[..9] == "/account/" then Some(Split(url[9..], '/')) else None
  }

  /** The segments determine the account URL: two URLs that read back alike are the same URL. */
  lemma PathOfDetermines(a: string, b: string)
    requires PathOf(a).Some? && PathOf(a) == PathOf(b)
    ensures a == b
  {
    JoinSplit(a[9..], '/');
    JoinSplit(b[9..], '/');
    assert a == a[..9] + a[9..];
    assert b == b[..9] + b[9..];
  }

  /**
   * An account path reads back as the segments of the addressed user followed by
   * those of the tail; a username holding '/' is concatenated as it is and so reads
   * back as several segments.
   */
  lemma AccountPathTarget(username: Option<string>, tail: string)
    ensures PathOf(AccountPath(username, tail)) == Some(Split(Segment(username), '/') + Split(tail, '/'))
  {
    var p := AccountPath(username, tail);
    assert p == "/account/" + (Segment(username) + "/" + tail);
    assert p[9..] == Segment(username) + ['/'] + tail;
    SplitSep(Segment(username), '/', tail);
  }

  /** An account path of a one-segment endpoint reads back as the user's segments and then that endpoint. */
  lemma EndpointPath(username: Option<string>, endpoint: string)
    requires '/' !in endpoint
    ensures PathOf(AccountPath(username, endpoint)) == Some(Split(Segment(username), '/') + [endpoint])
  {
    AccountPathTarget(username, endpoint);
    SplitWithout(endpoint, '/');
  }

  /** `me` is one segment. */
  lemma MeSegment()
    ensures Split("me", '/') == ["me"]
  {
    SplitWithout("me", '/');
  }

  /** A one-segment path `/account/{endpoint}` is no account path of any user. */
  lemma OneSegmentApart(endpoint: string)
    requires '/' !in endpoint
    ensures forall who, tail :: "/account/" + endpoint != AccountPath(who, tail)
  {
    forall who, tail
      ensures "/account/" + endpoint != AccountPath(who, tail)
    {
      var p := AccountPath(who, tail);
      assert p[9..] == Segment(who) + "/" + tail;
      assert p[9..][|Segment(who)|] == '/';
      assert ("/account/" + endpoint)[9..] == endpoint;
    }
  }

  /** `/account/{username}` reads back as the segments of that username and nothing after them. */
  lemma UserPathTarget(username: string)
    ensures PathOf("/account/" + username) == Some(Split(username, '/'))
  {
    assert ("/account/" + username)[9..] == username;
  }

  /** `/account/{endpoint}` for a one-segment endpoint reads back as that endpoint alone and is no user's account path. */
  lemma OneSegmentEndpoint(endpoint: string)
    requires '/' !in endpoint
    ensures PathOf("/account/" + endpoint) == Some([endpoint])
    ensures forall who, tail :: "/account/" + endpoint != AccountPath(who, tail)
  {
    UserPathTarget(endpoint);
    SplitWithout(endpoint, '/');
    OneSegmentApart(endpoint);
  }

  const StatusRequest := HttpRequest(Get, "/account/status", NoContent)

  /**
   * login: a POST of both credentials to the one-segment path `login`, which no
   * account path (`/account/{user}/...`) can be mistaken for.
   */
  function LoginRequest(username: string, password: string): (r: HttpRequest)
    ensures r.verb == Post && PathOf(r.url) == Some(["login"])
    ensures r.body.Credentials? && r.body.username == username && r.body.password == password
    ensures forall who, tail :: r.url != AccountPath(who, tail)
  {
    OneSegmentEndpoint("login");
    HttpRequest(Post, "/account/" + "login", Credentials(username, password))
  }

  /**
   * register: a POST of both credentials to the one-segment path `register`, which no
   * account path (`/account/{user}/...`) can be mistaken for.
   */
  function RegisterRequest(username: string, password: string): (r: HttpRequest)
    ensures r.verb == Post && PathOf(r.url) == Some(["register"])
    ensures r.body.Credentials? && r.body.username == username && r.body.password == password
    ensures forall who, tail :: r.url != AccountPath(who, tail)
  {
    OneSegmentEndpoint("register");
    HttpRequest(Post, "/account/" + "register", Credentials(username, password))
  }

  /** Sign-in and sign-up never send the same request, whatever the credentials. */
  lemma LoginIsNotRegister(u: string, p: string, v: string, q: string)
    ensures LoginRequest(u, p) != RegisterRequest(v, q)
  {
    assert PathOf(LoginRequest(u, p).url) != PathOf(RegisterRequest(v, q).url);
  }

  /** getUserProfile: a GET of the addressed user's `profile`. */
  function GetUserProfile(username: Option<string>): (r: HttpRequest)
    ensures r.verb == Get && r.body == NoContent
  {
    HttpRequest(Get, AccountPath(username, "profile"), NoContent)
  }

  /** The profile URL reads back as the addressed user's segments, then `profile`. */
  lemma GetUserProfilePath(username: Option<string>)
    ensures PathOf(GetUserProfile(username).url) == Some(Split(Segment(username), '/') + ["profile"])
  {
    EndpointPath(username, "profile");
  }

  /** getUserData: the signed-in user's private `data`. */
  function GetUserData(): (r: HttpRequest)
    ensures r.verb == Get && r.body == NoContent
  {
    HttpRequest(Get, AccountPath(None, "data"), NoContent)
  }

  /** The private data URL reads back as `me`, then `data`. */
  lemma GetUserDataPath()
    ensures PathOf(GetUserData().url) == Some(["me", "data"])
  {
    EndpointPath(None, "data");
    MeSegment();
    assert ["me"] + ["data"] == ["me", "data"];
  }

  /** updateUserData: a PATCH of the addressed user's `data` (`null` addresses `me`). */
  function UpdateUserData(username: Option<string>, update: UserDataUpdate): (r: HttpRequest)
    ensures r.verb == Patch && r.body == UserDataChange(update)
  {
    HttpRequest(Patch, AccountPath(username, "data"), UserDataChange(update))
  }

  /** The update URL reads back as the addressed user's segments, then `data`. */
  lemma UpdateUserDataPath(username: Option<string>, update: UserDataUpdate)
    ensures PathOf(UpdateUserData(username, update).url) == Some(Split(Segment(username), '/') + ["data"])
  {
    EndpointPath(username, "data");
  }

  /** changeUserName: a PUT of the new name to the addressed user's `username`. */
  function ChangeUserName(newUsername: string, oldUsername: Option<string>): (r: HttpRequest)
    ensures r.verb == Put && r.body == NewUsername(newUsername)
  {
    HttpRequest(Put, AccountPath(oldUsername, "username"), NewUsername(newUsername))
  }

  /** The rename URL reads back as the old user's segments, then `username`. */
  lemma ChangeUserNamePath(newUsername: string, oldUsername: Option<string>)
    ensures PathOf(ChangeUserName(newUsername, oldUsername).url) == Some(Split(Segment(oldUsername), '/') + ["username"])
  {
    EndpointPath(oldUsername, "username");
  }

  /** changePassword: a PUT of old and new password to the addressed user's `password`. */
  function ChangePassword(oldPassword: string, newPassword: string, username: Option<string>): (r: HttpRequest)
    ensures r.verb == Put && r.body == PasswordChange(oldPassword, newPassword)
  {
    HttpRequest(Put, AccountPath(username, "password"), PasswordChange(oldPassword, newPassword))
  }

  /** The password URL reads back as the addressed user's segments, then `password`. */
  lemma ChangePasswordPath(oldPassword: string, newPassword: string, username: Option<string>)
    ensures PathOf(ChangePassword(oldPassword, newPassword, username).url) == Some(Split(Segment(username), '/') + ["password"])
  {
    EndpointPath(username, "password");
  }

  /** getFollower: the addressed user's `followers`. */
  function GetFollower(username: Option<string>): (r: HttpRequest)
    ensures r.verb == Get && r.body == NoContent
  {
    HttpRequest(Get, AccountPath(username, "followers"), NoContent)
  }

  /** The followers URL reads back as the addressed user's segments, then `followers`. */
  lemma GetFollowerPath(username: Option<string>)
    ensures PathOf(GetFollower(username).url) == Some(Split(Segment(username), '/') + ["followers"])
  {
    EndpointPath(username, "followers");
  }

  /** getFollowing: the users the addressed user is `following`. */
  function GetFollowing(username: Option<string>): (r: HttpRequest)
    ensures r.verb == Get && r.body == NoContent
  {
    HttpRequest(Get, AccountPath(username, "following"), NoContent)
  }

  /** The following URL reads back as the addressed user's segments, then `following`. */
  lemma GetFollowingPath(username: Option<string>)
    ensures PathOf(GetFollowing(username).url) == Some(Split(Segment(username), '/') + ["following"])
  {
    EndpointPath(username, "following");
  }

  /** The follow path of a target reads back as `me`, `following` and the segments of the target. */
  lemma FollowingPath(targetUsername: string)
    ensures "/account/me/following/" + targetUsername == AccountPath(None, "following/" + targetUsername)
    ensures PathOf("/account/me/following/" + targetUsername) == Some(["me", "following"] + Split(targetUsername, '/'))
  {
    FollowingUrl(targetUsername);
    FollowingSegments(targetUsername);
  }

  lemma FollowingSegments(targetUsername: string)
    ensures PathOf(AccountPath(None, "following/" + targetUsername)) == Some(["me", "following"] + Split(targetUsername, '/'))
  {
    var tail := "following/" + targetUsername;
    AccountPathTarget(None, tail);
    MeSegment();
    FollowingTail(targetUsername);
    PrependTwo("me", "following", Split("me", '/'), Split(tail, '/'), Split(targetUsername, '/'));
  }

  lemma PrependTwo(a: string, b: string, x: seq<string>, y: seq<string>, z: seq<string>)
    requires x == [a] && y == [b] + z
    ensures x + y == [a, b] + z
  {
    assert [a] + ([b] + z) == [a, b] + z;
  }

  lemma FollowingTail(targetUsername: string)
    ensures Split("following/" + targetUsername, '/') == ["following"] + Split(targetUsername, '/')
  {
    SplitAround("following", '/', targetUsername);
    assert "following/" + targetUsername == "following" + ['/'] + targetUsername;
  }

  lemma FollowingUrl(targetUsername: string)
    ensures "/account/me/following/" + targetUsername == AccountPath(None, "following/" + targetUsername)
  {
    assert "/account/me/following/" == "/account/me/" + "following/";
  }

  /** changeFollow: POST to follow and DELETE to unfollow, on one and the same `me/following/{target}` path. */
  function ChangeFollow(targetUsername: string, follow: bool): (r: HttpRequest)
    ensures r.verb == (if follow then Post else Delete)
    ensures r.url == AccountPath(None, "following/" + targetUsername)
    ensures PathOf(r.url) == Some(["me", "following"] + Split(targetUsername, '/'))
  {
    FollowingPath(targetUsername);
    if follow then HttpRequest(Post, "/account/me/following/" + targetUsername, NoContent)
    else HttpRequest(Delete, "/account/me/following/" + targetUsername, NoContent)
  }

  /** deleteUser: always `/account/{username}` and nothing after it, whether or not it is the signed-in user. */
  function DeleteUser(username: string): (r: HttpRequest)
    ensures r.verb == Delete && r.body == NoContent
  {
    HttpRequest(Delete, "/account/" + username, NoContent)
  }

  /** The delete URL reads back as the username's segments and nothing after them. */
  lemma DeleteUserPath(username: string)
    ensures PathOf(DeleteUser(username).url) == Some(Split(username, '/'))
  {
    UserPathTarget(username);
  }

  /** What the status probe publishes: `Some(v)` publishes v, `None` publishes nothing. */
  function StatusOutcome(res: Response<bool>, decoded: Option<Claims>): Option<Option<Claims>> {
    match res
    case Ok(isLoggedIn) => if isLoggedIn then Some(decoded) else Some(None)
    case Err(e) => if e.status == 401 then Some(None) else None
  }

  /** The probe signs the user out exactly on `false` and on 401; other failures publish nothing. */
  lemma StatusSignsOutExactly(res: Response<bool>, decoded: Option<Claims>)
    ensures StatusOutcome(res, decoded) == Some(None)
       <==> res == Ok(false) || (res.Err? && res.error.status == 401) || (res == Ok(true) && decoded == None)
    ensures StatusOutcome(res, decoded) == None <==> res.Err? && res.error.status != 401
  {
  }

  /** A request together with the `jwt` cookie the browser holds when it is sent. */
  datatype Sent = Sent(request: HttpRequest, jwt: Option<string>)

  class AccountService {
    /** The `jwt` entry of the cookie store. */
    var jwtCookie: Option<string>
    /** The replay-1 cell: `None` until the first publish, then the latest published value. */
    var currentUserJwt: Option<Option<Claims>>
    /** Every value published into the cell, in order. */
    ghost var published: seq<Option<Claims>>
    ghost var sent: seq<Sent>
    /** Navigation intents (`navigateByUrl`). */
    ghost var navigations: seq<string>

    /** The cell holds exactly the latest published value. */
    ghost predicate Valid()
      reads this
    {
      currentUserJwt == if published == [] then None else Some(published[|published| - 1])
    }

    constructor (storedJwt: Option<string>)
      ensures Valid()
      ensures jwtCookie == storedJwt && published == [] && sent == [] && navigations == []
    {
      jwtCookie := storedJwt;
      currentUserJwt := None;
      published := [];
      sent := [];
      navigations := [];
    }

    /** getCurrentUserJwt: what a new observer receives at once, the latest published value. */
    function GetCurrentUserJwt(): (latest: Option<Option<Claims>>)
      reads this
      requires Valid()
      ensures published == [] ==> latest == None
      ensures published != [] ==> latest == Some(published[|published| - 1])
    {
      currentUserJwt
    }

    /** Pushes a value into the replay-1 cell. */
    method Publish(v: Option<Claims>)
      requires Valid()
      modifies this
      ensures Valid()
      ensures published == old(published) + [v] && currentUserJwt == Some(v)
      ensures jwtCookie == old(jwtCookie) && sent == old(sent) && navigations == old(navigations)
    {
      currentUserJwt := Some(v);
      published := published + [v];
    }

    /** refreshCurrentJwt, first half: sends the status probe. */
    method RefreshCurrentJwt()
      requires Valid()
      modifies this
      ensures Valid()
      ensures sent == old(sent) + [Sent(StatusRequest, jwtCookie)]
      ensures jwtCookie == old(jwtCookie) && published == old(published)
      ensures currentUserJwt == old(currentUserJwt) && navigations == old(navigations)
    {
      sent := sent + [Sent(StatusRequest, jwtCookie)];
    }

    /** refreshCurrentJwt, second half: the probe's answer; `decoded` is what the JWT helper decodes. */
    method OnStatus(res: Response<bool>, decoded: Option<Claims>)
      requires Valid()
      modifies this
      ensures Valid()
      ensures res == Ok(true) ==> published == old(published) + [decoded]
      ensures res == Ok(false) ==> published == old(published) + [None]
      ensures res.Err? && res.error.status == 401 ==> published == old(published) + [None]
      ensures res.Err? && res.error.status != 401 ==>
                published == old(published) && currentUserJwt == old(currentUserJwt)
      ensures jwtCookie == old(jwtCookie) && sent == old(sent) && navigations == old(navigations)
    {
      var outcome := StatusOutcome(res, decoded);
      if outcome.Some? {
        Publish(outcome.value);
      }
    }

    /** login, first half: sends the credentials. */
    method Login(username: string, password: string)
      requires Valid()
      modifies this
      ensures Valid()
      ensures sent == old(sent) + [Sent(LoginRequest(username, password), jwtCookie)]
      ensures jwtCookie == old(jwtCookie) && published == old(published)
      ensures currentUserJwt == old(currentUserJwt) && navigations == old(navigations)
    {
      sent := sent + [Sent(LoginRequest(username, password), jwtCookie)];
    }

    /**
     * login, second half: on success the response text becomes the `jwt` cookie and
     * exactly one status probe follows, carrying that cookie; a failure changes nothing
     * (the error goes on to the caller).
     */
    method OnLoginResponse(res: Response<string>)
      requires Valid()
      modifies this
      ensures Valid()
      ensures res.Ok? ==> jwtCookie == Some(res.value)
      ensures res.Ok? ==> sent == old(sent) + [Sent(StatusRequest, Some(res.value))]
      ensures res.Err? ==> jwtCookie == old(jwtCookie) && sent == old(sent)
      ensures published == old(published) && currentUserJwt == old(currentUserJwt)
      ensures navigations == old(navigations)
    {
      if res.Ok? {
        jwtCookie := Some(res.value);
        RefreshCurrentJwt();
      }
    }

    /**
     * logout: deletes the cookie, then probes the status (so the probe carries no
     * cookie) and navigates only when a non-empty redirect is given.
     */
    method Logout(redirect: Option<string>)
      requires Valid()
      modifies this
      ensures Valid()
      ensures jwtCookie == None
      ensures sent == old(sent) + [Sent(StatusRequest, None)]
      ensures navigations == old(navigations) + (if Truthy(redirect) then [redirect.value] else [])
      ensures published == old(published) && currentUserJwt == old(currentUserJwt)
    {
      jwtCookie := None;
      RefreshCurrentJwt();
      if Truthy(redirect) {
        navigations := navigations + [redirect.value];
      }
    }

    /** changeUserName succeeded: the session is ended and the user sent to the login page. */
    method OnUserNameChanged()
      requires Valid()
      modifies this
      ensures Valid()
      ensures jwtCookie == None && sent == old(sent) + [Sent(StatusRequest, None)]
      ensures navigations == old(navigations) + ["/login?ref=u"]
      ensures published == old(published) && currentUserJwt == old(currentUserJwt)
    {
      Logout(Some("/login?ref=u"));
    }

    /** changePassword succeeded: the session is ended and the user sent to the login page. */
    method OnPasswordChanged()
      requires Valid()
      modifies this
      ensures Valid()
      ensures jwtCookie == None && sent == old(sent) + [Sent(StatusRequest, None)]
      ensures navigations == old(navigations) + ["/login?ref=u"]
      ensures published == old(published) && currentUserJwt == old(currentUserJwt)
    {
      Logout(Some("/login?ref=u"));
    }

    /** deleteUser succeeded: only the deletion of one's own account logs out, without navigating. */
    method OnUserDeleted(isMe: bool)
      requires Valid()
      modifies this
      ensures Valid()
      ensures isMe ==> jwtCookie == None && sent == old(sent) + [Sent(StatusRequest, None)]
      ensures !isMe ==> jwtCookie == old(jwtCookie) && sent == old(sent)
      ensures navigations == old(navigations)
      ensures published == old(published) && currentUserJwt == old(currentUserJwt)
    {
      if isMe {
        Logout(None);
      }
    }
  }

  /** A login, its probe answering `true`, and a late observer: it sees the decoded claims. */
  method LoginThenRefresh(token: string, claims: Claims)
  {
    var account := new AccountService(None);
    account.Login("alice", "secret");
    account.OnLoginResponse(Ok(token));
    assert account.sent[1] == Sent(StatusRequest, Some(token));
    account.OnStatus(Ok(true), Some(claims));
    assert account.GetCurrentUserJwt() == Some(Some(claims));
    account.OnStatus(Err(HttpError(0, OtherBody)), None);
    assert account.GetCurrentUserJwt() == Some(Some(claims));
    account.Logout(Some("/login"));
    account.OnStatus(Err(HttpError(401, NoBody)), None);
    assert account.GetCurrentUserJwt() == Some(None);
    assert account.navigations == ["/login"];
  }
}

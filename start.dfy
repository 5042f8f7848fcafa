/**
 * The start page (src/app/start/start.component.ts): the public feed and the
 * private (following) feed, each a list of posts that pages are appended to, a
 * newly created post prepended to, and a loading flag for the "load more" button.
 */
module Start {
  import opened Wrappers
  import opened Dtos
  import opened Http
  import opened Utils
  import opened Content
  import Account

  const FollowingFeedError := "An error occured while loading your following feed. Please try again later!"
  const NewPostError := "An error occured while loading your newly created post, but it has been added! Please try loading your feed again later!"
  const PublicFeedError := "An error occured while loading your public feed. Please try again later!"
  const MorePostsError := "An error occured while loading more posts, please try again later!"
  const NoMorePosts := "No more posts available to load!"

  /** The next page starts at the creation time of the last post held, or now when there is none. */
  function Cursor(posts: Option<seq<Post>>, now: Timestamp): Timestamp {
    if posts.Some? && |posts.value| > 0 then posts.value[|posts.value| - 1].createdAt else now
  }

  /** The server's feed order: strictly newest first. */
  ghost predicate Descending(ps: seq<Post>) {
    forall i :: 0 <= i < |ps| - 1 ==> ps[i].createdAt > ps[i + 1].createdAt
  }

  /** In a feed in server order, the cursor is older than every other post held. */
  lemma {:induction false} CursorIsOldest(ps: seq<Post>, now: Timestamp)
    requires Descending(ps)
    ensures forall i :: 0 <= i < |ps| - 1 ==> ps[i].createdAt > Cursor(Some(ps), now)
  {
    if |ps| > 1 {
      CursorIsOldest(ps[1..], now);
      assert Cursor(Some(ps[1..]), now) == Cursor(Some(ps), now);
      forall i | 0 <= i < |ps| - 1
        ensures ps[i].createdAt > Cursor(Some(ps), now)
      {
        if i > 0 {
          assert ps[i] == ps[1..][i - 1];
        } else if |ps| > 2 {
          assert ps[1] == ps[1..][0];
        }
      }
    }
  }

  /** Appending a page of posts older than the cursor, in server order, keeps the feed in server order. */
  lemma {:induction false} OlderPageKeepsOrder(feed: seq<Post>, page: seq<Post>, now: Timestamp)
    requires Descending(feed) && Descending(page)
    requires forall i :: 0 <= i < |page| ==> page[i].createdAt < Cursor(Some(feed), now)
    ensures Descending(feed + page)
  {
    var all := feed + page;
    forall i | 0 <= i < |all| - 1
      ensures all[i].createdAt > all[i + 1].createdAt
    {
      if i + 1 < |feed| {
        assert all[i] == feed[i] && all[i + 1] == feed[i + 1];
      } else if i + 1 == |feed| {
        assert all[i] == feed[|feed| - 1] && all[i + 1] == page[0];
      } else {
        assert all[i] == page[i - |feed|] && all[i + 1] == page[i + 1 - |feed|];
      }
    }
  }

  /** Putting a post newer than the head in front keeps the feed in server order. */
  lemma {:induction false} NewerPostKeepsOrder(post: Post, feed: seq<Post>)
    requires Descending(feed)
    requires |feed| > 0 ==> post.createdAt > feed[0].createdAt
    ensures Descending([post] + feed)
  {
    var all := [post] + feed;
    forall i | 0 <= i < |all| - 1
      ensures all[i].createdAt > all[i + 1].createdAt
    {
      if i > 0 {
        assert all[i] == feed[i - 1] && all[i + 1] == feed[i];
      }
    }
  }

  class StartComponent {
    var publicPosts: Option<seq<Post>>
    var loadingNextPublicPage: bool
    var privatePosts: Option<seq<Post>>
    var loadingNextPrivatePage: bool
    var currentUserJwt: Option<Account.Claims>
    const messageService: MessageService
    /** The calls into the content service, in the order they were made. */
    ghost var requests: seq<Call>

    /** Starts with empty state and requests the first public page. */
    constructor (messageService: MessageService, now: Timestamp)
      ensures this.messageService == messageService
      ensures publicPosts == None && privatePosts == None && currentUserJwt == None
      ensures !loadingNextPublicPage && !loadingNextPrivatePage
      ensures requests == [PublicFeed(now)]
    {
      this.messageService := messageService;
      publicPosts := None;
      loadingNextPublicPage := false;
      privatePosts := None;
      loadingNextPrivatePage := false;
      currentUserJwt := None;
      requests := [PublicFeed(now)];
    }

    /** The first public page replaces the public feed wholesale. */
    method OnFirstPublicPage(res: Response<seq<Post>>)
      modifies this, messageService
      ensures res.Ok? ==> publicPosts == Some(res.value) && messageService.messages == old(messageService.messages)
      ensures res.Err? ==> publicPosts == old(publicPosts)
      ensures res.Err? ==> messageService.messages == old(messageService.messages) + [GeneralError(PublicFeedError)]
      ensures privatePosts == old(privatePosts) && currentUserJwt == old(currentUserJwt)
      ensures loadingNextPublicPage == old(loadingNextPublicPage)
      ensures loadingNextPrivatePage == old(loadingNextPrivatePage)
      ensures requests == old(requests)
    {
      match res
      case Ok(data) => publicPosts := Some(data);
      case Err(_) => ShowGeneralError(messageService, PublicFeedError);
    }

    /**
     * A session change: the claims are stored; signed in, the first private page is
     * requested; signed out, the private feed is emptied.
     */
    method OnSession(newJwt: Option<Account.Claims>, now: Timestamp)
      modifies this
      ensures currentUserJwt == newJwt
      ensures newJwt.Some? ==> requests == old(requests) + [PrivateFeed(now)] && privatePosts == old(privatePosts)
      ensures newJwt.None? ==> requests == old(requests) && privatePosts == Some([])
      ensures publicPosts == old(publicPosts)
      ensures loadingNextPublicPage == old(loadingNextPublicPage)
      ensures loadingNextPrivatePage == old(loadingNextPrivatePage)
    {
      currentUserJwt := newJwt;
      if currentUserJwt.Some? {
        requests := requests + [PrivateFeed(now)];
      } else {
        privatePosts := Some([]);
      }
    }

    /** The first private page replaces the private feed wholesale. */
    method OnFirstPrivatePage(res: Response<seq<Post>>)
      modifies this, messageService
      ensures res.Ok? ==> privatePosts == Some(res.value) && messageService.messages == old(messageService.messages)
      ensures res.Err? ==> privatePosts == old(privatePosts)
      ensures res.Err? ==> messageService.messages == old(messageService.messages) + [GeneralError(FollowingFeedError)]
      ensures publicPosts == old(publicPosts) && currentUserJwt == old(currentUserJwt)
      ensures loadingNextPublicPage == old(loadingNextPublicPage)
      ensures loadingNextPrivatePage == old(loadingNextPrivatePage)
      ensures requests == old(requests)
    {
      match res
      case Ok(data) => privatePosts := Some(data);
      case Err(_) => ShowGeneralError(messageService, FollowingFeedError);
    }

    /** A post was created elsewhere: fetch it in full. */
    method OnNewPostId(postId: int)
      modifies this
      ensures requests == old(requests) + [RetrievePost(postId)]
      ensures publicPosts == old(publicPosts) && privatePosts == old(privatePosts)
      ensures currentUserJwt == old(currentUserJwt)
      ensures loadingNextPublicPage == old(loadingNextPublicPage)
      ensures loadingNextPrivatePage == old(loadingNextPrivatePage)
    {
      requests := requests + [RetrievePost(postId)];
    }

    /** The fetched new post goes to the front of the public feed; the others keep their order. */
    method OnRetrievedPost(res: Response<Post>)
      modifies this, messageService
      ensures res.Ok? ==> publicPosts == Some([res.value] + old(publicPosts).GetOr([]))
      ensures res.Ok? ==> messageService.messages == old(messageService.messages)
      ensures res.Err? ==> publicPosts == old(publicPosts)
      ensures res.Err? ==> messageService.messages == old(messageService.messages) + [GeneralError(NewPostError)]
      ensures privatePosts == old(privatePosts) && currentUserJwt == old(currentUserJwt)
      ensures loadingNextPublicPage == old(loadingNextPublicPage)
      ensures loadingNextPrivatePage == old(loadingNextPrivatePage)
      ensures requests == old(requests)
    {
      match res
      case Ok(post) =>
        if publicPosts.Some? {
          publicPosts := Some([post] + publicPosts.value);
        } else {
          assert [post] + [] == [post];
          publicPosts := Some([post]);
        }
      case Err(_) => ShowGeneralError(messageService, NewPostError);
    }

    /** loadNextPublicPage: sets the flag and requests the page after the cursor; there is no in-flight guard. */
    method LoadNextPublicPage(now: Timestamp)
      modifies this
      ensures loadingNextPublicPage
      ensures requests == old(requests) + [PublicFeed(Cursor(publicPosts, now))]
      ensures publicPosts == old(publicPosts) && privatePosts == old(privatePosts)
      ensures currentUserJwt == old(currentUserJwt)
      ensures loadingNextPrivatePage == old(loadingNextPrivatePage)
    {
      loadingNextPublicPage := true;
      requests := requests + [PublicFeed(Cursor(publicPosts, now))];
    }

    /**
     * A further public page: appended in its order (a null feed becomes the page), an
     * empty page adds the info message, an error adds an error message and leaves the
     * feed alone; the flag is cleared in every case.
     */
    method OnNextPublicPage(res: Response<seq<Post>>)
      modifies this, messageService
      ensures !loadingNextPublicPage
      ensures res.Ok? ==> publicPosts == Some(old(publicPosts).GetOr([]) + res.value)
      ensures res.Ok? && res.value == [] ==>
                messageService.messages == old(messageService.messages) + [GeneralError(NoMorePosts, Info, "")]
      ensures res.Ok? && res.value != [] ==> messageService.messages == old(messageService.messages)
      ensures res.Err? ==> publicPosts == old(publicPosts)
      ensures res.Err? ==> messageService.messages == old(messageService.messages) + [GeneralError(MorePostsError)]
      ensures privatePosts == old(privatePosts) && currentUserJwt == old(currentUserJwt)
      ensures loadingNextPrivatePage == old(loadingNextPrivatePage)
      ensures requests == old(requests)
    {
      match res
      case Err(_) =>
        ShowGeneralError(messageService, MorePostsError);
        loadingNextPublicPage := false;
      case Ok(data) =>
        if |data| == 0 {
          ShowGeneralError(messageService, NoMorePosts, Info, "");
        }
        if publicPosts.Some? {
          publicPosts := Some(publicPosts.value + data);
        } else {
          assert [] + data == data;
          publicPosts := Some(data);
        }
        loadingNextPublicPage := false;
    }

    /** loadNextPrivatePage: nothing when signed out; otherwise as for the public feed. */
    method LoadNextPrivatePage(now: Timestamp)
      modifies this
      ensures currentUserJwt.None? ==> requests == old(requests)
      ensures currentUserJwt.None? ==> loadingNextPrivatePage == old(loadingNextPrivatePage)
      ensures currentUserJwt.Some? ==> loadingNextPrivatePage
      ensures currentUserJwt.Some? ==> requests == old(requests) + [PrivateFeed(Cursor(privatePosts, now))]
      ensures publicPosts == old(publicPosts) && privatePosts == old(privatePosts)
      ensures currentUserJwt == old(currentUserJwt)
      ensures loadingNextPublicPage == old(loadingNextPublicPage)
    {
      if currentUserJwt.None? {
        return;
      }
      loadingNextPrivatePage := true;
      requests := requests + [PrivateFeed(Cursor(privatePosts, now))];
    }

    /** A further private page, handled as a public one. */
    method OnNextPrivatePage(res: Response<seq<Post>>)
      modifies this, messageService
      ensures !loadingNextPrivatePage
      ensures res.Ok? ==> privatePosts == Some(old(privatePosts).GetOr([]) + res.value)
      ensures res.Ok? && res.value == [] ==>
                messageService.messages == old(messageService.messages) + [GeneralError(NoMorePosts, Info, "")]
      ensures res.Ok? && res.value != [] ==> messageService.messages == old(messageService.messages)
      ensures res.Err? ==> privatePosts == old(privatePosts)
      ensures res.Err? ==> messageService.messages == old(messageService.messages) + [GeneralError(MorePostsError)]
      ensures publicPosts == old(publicPosts) && currentUserJwt == old(currentUserJwt)
      ensures loadingNextPublicPage == old(loadingNextPublicPage)
      ensures requests == old(requests)
    {
      match res
      case Err(_) =>
        ShowGeneralError(messageService, MorePostsError);
        loadingNextPrivatePage := false;
      case Ok(data) =>
        if |data| == 0 {
          ShowGeneralError(messageService, NoMorePosts, Info, "");
        }
        if privatePosts.Some? {
          privatePosts := Some(privatePosts.value + data);
        } else {
          assert [] + data == data;
          privatePosts := Some(data);
        }
        loadingNextPrivatePage := false;
    }
  }

  /** Three pages in a row give the concatenation of the pages, and an empty page changes nothing. */
  method ThreePages(p0: seq<Post>, p1: seq<Post>, p2: seq<Post>, now: Timestamp)
    requires p1 != [] && p2 != []
  {
    var ms := new MessageService();
    var start := new StartComponent(ms, now);
    start.OnFirstPublicPage(Ok(p0));
    start.LoadNextPublicPage(now);
    start.OnNextPublicPage(Ok(p1));
    start.LoadNextPublicPage(now);
    start.OnNextPublicPage(Ok(p2));
    assert start.publicPosts == Some(p0 + p1 + p2);
    start.LoadNextPublicPage(now);
    start.OnNextPublicPage(Ok([]));
    assert p0 + p1 + p2 + [] == p0 + p1 + p2;
    assert start.publicPosts == Some(p0 + p1 + p2);
    assert ms.messages == [GeneralError(NoMorePosts, Info, "")];
  }

  /**
   * Two "load more" clicks issue two requests, and the first answer clears the flag
   * while the second request is still outstanding: the code has no in-flight guard.
   */
  method NoPaginationGuard(now: Timestamp)
  {
    var ms := new MessageService();
    var start := new StartComponent(ms, now);
    start.LoadNextPublicPage(now);
    start.LoadNextPublicPage(now);
    assert start.requests == [PublicFeed(now), PublicFeed(now), PublicFeed(now)];
    start.OnNextPublicPage(Ok([]));
    assert !start.loadingNextPublicPage;
  }
}

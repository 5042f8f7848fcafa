/**
 * The vote widget of a post (src/app/poststats/poststats.component.ts). A click
 * either removes the viewer's vote (when it clicks the vote already set) or sets
 * it; the post is left alone until the server answers, then the server's counts
 * are copied in, or the vote is put back to what it was before the click.
 */
module Poststats {
  import opened Wrappers
  import opened Dtos
  import opened Http
  import opened Utils
  import opened Content

  const MustBeLoggedIn := "You have to be logged in to vote on a post!"
  const VoteFailed := "An error occured while updating your vote, please try again later!"

  /** A vote call together with the vote to fall back to, which the response handlers receive. */
  datatype VoteRequest = VoteRequest(call: Call, previousVote: Option<VoteType>)

  /** The request a click on `vote` issues for a post whose vote is `current`. */
  function VoteRequestFor(postId: int, current: Option<VoteType>, vote: VoteType): (r: VoteRequest)
    ensures current == Some(vote) <==> r.call == RemoveVote(postId)
    ensures current != Some(vote) <==> r.call == SetVote(postId, vote)
    ensures r.previousVote == current
  {
    if current == Some(vote) then VoteRequest(RemoveVote(postId), Some(vote))
    else VoteRequest(SetVote(postId, vote), current)
  }

  /** Clicking the same vote twice, each time after a successful answer, removes what the first click set. */
  lemma ToggleOff(postId: int, vote: VoteType)
    ensures VoteRequestFor(postId, None, vote).call == SetVote(postId, vote)
    ensures VoteRequestFor(postId, Some(vote), vote).call == RemoveVote(postId)
  {
  }

  class PoststatsComponent {
    var post: Post?
    var voteRequestLoading: bool
    const messageService: MessageService
    ghost var requests: seq<VoteRequest>

    constructor (post: Post?, messageService: MessageService)
      ensures this.post == post && this.messageService == messageService
      ensures !voteRequestLoading && requests == []
    {
      this.post := post;
      this.messageService := messageService;
      voteRequestLoading := false;
      requests := [];
    }

    /**
     * `vote`: ignored while a request is in flight; otherwise the flag is set first and
     * one request goes out, chosen by `VoteRequestFor`. Without a post the flag is set
     * and nothing goes out. The post itself is not touched.
     */
    method Vote(vote: VoteType)
      modifies this
      ensures post == old(post)
      ensures old(voteRequestLoading) ==> voteRequestLoading && requests == old(requests)
      ensures !old(voteRequestLoading) ==> voteRequestLoading
      ensures !old(voteRequestLoading) && post == null ==> requests == old(requests)
      ensures !old(voteRequestLoading) && post != null ==>
                requests == old(requests) + [VoteRequestFor(post.id, post.vote, vote)]
    {
      if voteRequestLoading {
        return;
      }
      voteRequestLoading := true;
      if post != null && post.vote == Some(vote) {
        RequestVoteRemove(vote);
      } else {
        var previous := if post != null then post.vote else None;
        match vote
        case Upvote => RequestVote(vote, previous);
        case Downvote => RequestVote(vote, previous);
      }
    }

    /** requestVote: a set-vote call for the post, if there is one. */
    method RequestVote(vote: VoteType, previousVote: Option<VoteType>)
      modifies this
      ensures post == old(post) && voteRequestLoading == old(voteRequestLoading)
      ensures post != null ==> requests == old(requests) + [VoteRequest(SetVote(post.id, vote), previousVote)]
      ensures post == null ==> requests == old(requests)
    {
      if post != null {
        requests := requests + [VoteRequest(SetVote(post.id, vote), previousVote)];
      }
    }

    /** requestVoteRemove: a remove-vote call for the post, if there is one. */
    method RequestVoteRemove(previousVote: VoteType)
      modifies this
      ensures post == old(post) && voteRequestLoading == old(voteRequestLoading)
      ensures post != null ==> requests == old(requests) + [VoteRequest(RemoveVote(post.id), Some(previousVote))]
      ensures post == null ==> requests == old(requests)
    {
      if post != null {
        requests := requests + [VoteRequest(RemoveVote(post.id), Some(previousVote))];
      }
    }

    /**
     * handleVoteError: exactly one message (a warning for 401, an error otherwise), the
     * vote rolled back to `previousVote`, the flag cleared; the counts are kept.
     */
    method HandleVoteError(err: HttpError, previousVote: Option<VoteType>)
      modifies this, post, messageService
      ensures !voteRequestLoading && post == old(post) && requests == old(requests)
      ensures err.status == 401 ==>
                messageService.messages == old(messageService.messages) + [GeneralError(MustBeLoggedIn, Warn)]
      ensures err.status != 401 ==>
                messageService.messages == old(messageService.messages) + [GeneralError(VoteFailed)]
      ensures post != null ==> post.vote == previousVote
      ensures post != null ==> post.upvoteCount == old(post.upvoteCount) && post.downvoteCount == old(post.downvoteCount)
    {
      if err.status == 401 {
        ShowGeneralError(messageService, MustBeLoggedIn, Warn);
      } else {
        ShowGeneralError(messageService, VoteFailed);
      }
      if post != null {
        post.vote := previousVote;
      }
      voteRequestLoading := false;
    }

    /** handleSuccess: the server's counts and vote replace the local ones; the flag is cleared. */
    method HandleSuccess(update: VoteUpdate)
      modifies this, post
      ensures !voteRequestLoading && post == old(post) && requests == old(requests)
      ensures post != null ==> post.upvoteCount == update.upvoteCount
      ensures post != null ==> post.downvoteCount == update.downvoteCount
      ensures post != null ==> post.vote == update.voteType
    {
      if post != null {
        post.downvoteCount := update.downvoteCount;
        post.upvoteCount := update.upvoteCount;
        post.vote := update.voteType;
      }
      voteRequestLoading := false;
    }
  }

  /** An upvote on an unvoted post: nothing changes until the answer; failure restores "no vote". */
  method UpvoteScenario(ms: MessageService)
    modifies ms
  {
    var post := new Post(7, "hello", Author("bob", None), 0, 4, 2, 0, None);
    var stats := new PoststatsComponent(post, ms);
    stats.Vote(Upvote);
    assert post.vote == None && post.upvoteCount == 4;
    assert stats.requests == [VoteRequest(SetVote(7, Upvote), None)];
    stats.Vote(Downvote);
    assert |stats.requests| == 1;
    stats.HandleSuccess(VoteUpdate(7, 5, 2, 1, Some(Upvote)));
    assert post.vote == Some(Upvote) && post.upvoteCount == 5 && post.downvoteCount == 2;
    stats.Vote(Upvote);
    assert stats.requests[1] == VoteRequest(RemoveVote(7), Some(Upvote));
    stats.HandleVoteError(HttpError(500, NoBody), Some(Upvote));
    assert post.vote == Some(Upvote) && !stats.voteRequestLoading;
  }
}

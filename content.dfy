/**
 * The calls the components make into the content and database services. Only the
 * call and its arguments are modelled; the services' own requests are not.
 */
module Content {
  import opened Wrappers
  import opened Dtos
  import opened Http

  datatype Call =
    | PublicFeed(from: Timestamp)
    | PrivateFeed(from: Timestamp)
    | UserFeed(from: Timestamp, username: Option<string>)
    | RetrievePost(postId: int)
    | CommentsForPost(postId: int)
    | CreateComment(postId: int, content: string)
    | SetVote(postId: int, vote: VoteType)
    | RemoveVote(postId: int)
    | ExecuteQuery(query: string)
    | Account(request: HttpRequest)   // a request of the account service
}

/**
 * The data transfer objects exchanged with the server (src/DTOs). They carry no
 * behaviour; `Post` is a class because the vote widget updates a post object in
 * place and the feeds hold the same object.
 */
module Dtos {
  import opened Wrappers

  /** Server error codes, a numeric TypeScript enum (values 0 to 10 in this order). */
  datatype ErrorCode =
    | PasswordIncorrect
    | UserNotFound
    | PostNotFound
    | CommentNotFound
    | ImageNotFound
    | UsernameAlreadyInUse
    | CharacterLimitExceeded
    | InteractionAlreadyMade
    | InvalidEmail
    | InvalidPhoneNumber
    | InvalidBirthday

  /** The number the server sends for an error code. */
  function Ordinal(e: ErrorCode): (n: nat)
    ensures n < 11
  {
    match e
    case PasswordIncorrect => 0
    case UserNotFound => 1
    case PostNotFound => 2
    case CommentNotFound => 3
    case ImageNotFound => 4
    case UsernameAlreadyInUse => 5
    case CharacterLimitExceeded => 6
    case InteractionAlreadyMade => 7
    case InvalidEmail => 8
    case InvalidPhoneNumber => 9
    case InvalidBirthday => 10
  }

  /** The error code a number denotes, if any. */
  function FromOrdinal(n: int): (r: Option<ErrorCode>)
    ensures r.Some? <==> 0 <= n < 11
    ensures r.Some? ==> Ordinal(r.value) == n
  {
    if n == 0 then Some(PasswordIncorrect)
    else if n == 1 then Some(UserNotFound)
    else if n == 2 then Some(PostNotFound)
    else if n == 3 then Some(CommentNotFound)
    else if n == 4 then Some(ImageNotFound)
    else if n == 5 then Some(UsernameAlreadyInUse)
    else if n == 6 then Some(CharacterLimitExceeded)
    else if n == 7 then Some(InteractionAlreadyMade)
    else if n == 8 then Some(InvalidEmail)
    else if n == 9 then Some(InvalidPhoneNumber)
    else if n == 10 then Some(InvalidBirthday)
    else None
  }

  /** Every code survives the trip to its number and back. */
  lemma OrdinalRoundTrip(e: ErrorCode)
    ensures FromOrdinal(Ordinal(e)) == Some(e)
  {
  }

  /** A viewer's vote on a post. */
  datatype VoteType = Upvote | Downvote

  datatype Role = User | Moderator | Admin

  datatype Gender = Male | Female | Other | NoAnswer

  /** The author reference of a post or comment. */
  datatype Author = Author(username: string, displayName: Option<string>)

  /** Timestamps are milliseconds since the epoch. */
  type Timestamp = int

  /** PostDTO. The counts and the viewer's vote are overwritten by vote responses. */
  class Post {
    const id: int
    const content: string
    const author: Author
    const createdAt: Timestamp
    const commentCount: int
    var upvoteCount: int
    var downvoteCount: int
    var vote: Option<VoteType>

    constructor (id: int, content: string, author: Author, createdAt: Timestamp,
                 upvoteCount: int, downvoteCount: int, commentCount: int, vote: Option<VoteType>)
      ensures this.id == id && this.content == content && this.author == author
      ensures this.createdAt == createdAt && this.commentCount == commentCount
      ensures this.upvoteCount == upvoteCount && this.downvoteCount == downvoteCount
      ensures this.vote == vote
    {
      this.id := id;
      this.content := content;
      this.author := author;
      this.createdAt := createdAt;
      this.commentCount := commentCount;
      this.upvoteCount := upvoteCount;
      this.downvoteCount := downvoteCount;
      this.vote := vote;
    }
  }

  datatype Comment = Comment(id: int, author: Author, createdAt: Timestamp, content: string)

  /** VoteUpdateViewModel: the server's counts and vote after a vote request. */
  datatype VoteUpdate = VoteUpdate(postId: int, upvoteCount: int, downvoteCount: int,
                                   userId: int, voteType: Option<VoteType>)

  /** DatabaseOperationDTO: the result of an administrator's query. */
  datatype DatabaseOperation = DatabaseOperation(hasResult: bool, affectedRows: Option<int>,
                                                 columns: Option<seq<string>>,
                                                 result: Option<seq<seq<string>>>)

  /** SuccessResult<T, E>: `success` defaults to false. */
  datatype SuccessResult<T, E> = SuccessResult(success: bool, result: Option<T>, error: Option<E>)

  /** UserDataViewModel: the private data of the signed-in user. */
  datatype UserData = UserData(id: int, createdAt: Timestamp, username: string,
                               displayName: Option<string>, role: Role,
                               birthday: Option<Timestamp>, gender: Option<Gender>,
                               profileImageUrl: Option<string>,
                               email: Option<string>, phoneNumber: Option<string>)

  /** UserDataUpdateRequest: the profile fields a user may patch. */
  datatype UserDataUpdate = UserDataUpdate(displayName: Option<string>, email: Option<string>,
                                           phoneNumber: Option<string>, birthday: Option<Timestamp>,
                                           gender: Option<Gender>)

  /** UserProfileViewModel: the public profile of a user. */
  datatype UserProfile = UserProfile(id: int, createdAt: string, username: string,
                                     displayName: Option<string>, role: Role,
                                     followerCount: int, followingCount: int,
                                     birthday: Option<string>, gender: Option<Gender>,
                                     profileImageUrl: Option<string>, follow: Option<bool>)
}

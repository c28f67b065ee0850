/**
 * The record types the local source builds from JSON items: a forecast question
 * (cafe/forecast/question.py) and a comment with its author, mentioned users and
 * "changed my mind" reaction (cafe/forecast/comment.py). Python does not check the
 * declared field types, so passed-through fields stay `Value`s; datetimes are epoch
 * seconds.
 */
module Records {
  import opened Py

  datatype Question = Question(
    id: string,
    title: Value,
    description: Value,
    resolutionCriteria: Value,
    createdAt: Option<int>,
    deadline: Option<int>,
    resolvedAt: Option<int>,
    status: Value,
    communityPrediction: Value,
    url: Value,
    tags: Value,
    raw: Value,
    /** An optional `comments` attribute: the class never sets one, but an object may carry it. */
    comments: Option<Value>)

  datatype Author = Author(id: Value, username: Value, isBot: Value, isStaff: Value)

  datatype MentionedUser = MentionedUser(id: Value, username: Value)

  datatype ChangedMyMind = ChangedMyMind(count: Value, forThisUser: Value)

  datatype Comment = Comment(
    id: int,
    author: Author,
    parentId: Value,
    rootId: Value,
    createdAt: int,
    text: Value,
    onPost: int,
    includedForecast: Value,
    isPrivate: Value,
    voteScore: Value,
    changedMyMind: Option<ChangedMyMind>,
    mentionedUsers: Option<seq<MentionedUser>>,
    userVote: Value,
    raw: Value)
}

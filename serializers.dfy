/**
 * The validation hooks of the post, comment and follow serializers. Each
 * hook either hands its input back unchanged or rejects it with a message.
 */
module Serializers {
  import opened Wrappers
  import opened Text
  import opened Models
  import opened Http

  /** Why a validator rejected its input. */
  datatype Message = TextEmpty | ImageTooLarge | GroupMissing | SelfFollow | AlreadyFollowing

  /** The text each rejection reports to the client. */
  function MessageText(m: Message): (t: string)
    ensures t != []
  {
    match m
    case TextEmpty => "Text cannot be empty"
    case ImageTooLarge => "Image size cannot exceed 2MB"
    case GroupMissing => "Group does not exist"
    case SelfFollow => "You can't follow yourself"
    case AlreadyFollowing => "You are already following this user"
  }

  /** Different reasons are reported with different texts. */
  lemma MessageTextsDistinct(m: Message, m': Message)
    ensures m != m' ==> MessageText(m) != MessageText(m')
  {
  }

  datatype Checked<T> = Accept(value: T) | Reject(reason: Message)

  /** The image size cap: 2 MiB. */
  const MaxImageSize: nat := 2 * 1024 * 1024

  /**
   * `validate_text` of both the post and the comment serializer: text that is
   * empty once stripped of whitespace is rejected, any other text is kept as
   * it came.
   */
  function ValidateText(value: string): (r: Checked<string>)
    ensures r.Reject? <==> AllSpace(value)
    ensures r.Reject? ==> r.reason == TextEmpty
    ensures r.Accept? ==> r.value == value
  {
    StripEmpty(value);
    if Strip(value) == [] then Reject(TextEmpty) else Accept(value)
  }

  /** `validate_image`: a supplied image over 2097152 bytes is rejected; no image, or a smaller one, passes. */
  function ValidateImage(value: Option<Image>): (r: Checked<Option<Image>>)
    ensures r.Reject? <==> value.Some? && value.value.size > 2097152
    ensures r.Reject? ==> r.reason == ImageTooLarge
    ensures r.Accept? ==> r.value == value
  {
    if value.Some? && value.value.size > MaxImageSize then Reject(ImageTooLarge) else Accept(value)
  }

  /** `validate_group`: a supplied group must be one of the existing groups; no group passes. */
  function ValidateGroup(value: Option<GroupId>, groups: seq<Group>): (r: Checked<Option<GroupId>>)
    ensures r.Reject? <==> value.Some? && !GroupExists(groups, value.value)
    ensures r.Reject? ==> r.reason == GroupMissing
    ensures r.Accept? ==> r.value == value
  {
    if value.Some? && !GroupExists(groups, value.value) then Reject(GroupMissing) else Accept(value)
  }

  /**
   * The body of a post request. `author` is whatever the client sent for the
   * read-only author field; the serializer never reads it.
   */
  datatype PostInput = PostInput(text: string, image: Option<Image>, group: Option<GroupId>, author: Option<UserId>)

  /** The reason a check gives, as a list of zero or one messages. */
  function Reason<T>(c: Checked<T>): (reasons: seq<Message>)
    ensures c.Accept? ==> reasons == []
    ensures c.Reject? ==> reasons == [c.reason]
  {
    if c.Reject? then [c.reason] else []
  }

  /**
   * Field validation of a post: every field's hook runs and the reasons of
   * all that reject are collected, in field order (text, image, group).
   */
  function PostErrors(input: PostInput, groups: seq<Group>): (errors: seq<Message>)
    ensures errors == [] <==>
      && ValidateText(input.text).Accept?
      && ValidateImage(input.image).Accept?
      && ValidateGroup(input.group, groups).Accept?
    ensures TextEmpty in errors <==> AllSpace(input.text)
    ensures ImageTooLarge in errors <==> input.image.Some? && input.image.value.size > MaxImageSize
    ensures GroupMissing in errors <==> input.group.Some? && !GroupExists(groups, input.group.value)
    ensures SelfFollow !in errors && AlreadyFollowing !in errors
  {
    Reason(ValidateText(input.text)) + Reason(ValidateImage(input.image)) + Reason(ValidateGroup(input.group, groups))
  }

  /** The body of a follow request: the user to follow. */
  datatype FollowInput = FollowInput(following: UserId)

  /**
   * `FollowSerializer.validate`: following oneself is rejected whatever the
   * method; on POST, a pair already in the store is rejected too. The
   * self-follow check comes first, so it is the reason reported when both
   * apply.
   */
  function ValidateFollow(user: UserId, verb: HttpMethod, data: FollowInput, follows: seq<Follow>): (r: Checked<FollowInput>)
    ensures user == data.following ==> r == Reject(SelfFollow)
    ensures user != data.following && verb == POST ==>
      (r.Reject? <==> Follow(user, data.following) in follows)
    ensures user != data.following && verb == POST && Follow(user, data.following) in follows ==>
      r == Reject(AlreadyFollowing)
    ensures user != data.following && verb != POST ==> r.Accept?
    ensures r.Reject? && r.reason == AlreadyFollowing ==> verb == POST && Follow(user, data.following) in follows
    ensures r.Accept? ==> r.value == data
  {
    if user == data.following then Reject(SelfFollow)
    else if verb == POST && Follow(user, data.following) in follows then Reject(AlreadyFollowing)
    else Accept(data)
  }

  /**
   * A follow accepted on POST and saved with the caller as its user keeps the
   * follow relation irreflexive and free of duplicate pairs.
   */
  lemma AcceptedFollowKeepsRelation(follows: seq<Follow>, user: UserId, data: FollowInput)
    requires FollowsValid(follows)
    requires ValidateFollow(user, POST, data, follows).Accept?
    ensures FollowsValid(follows + [Follow(user, data.following)])
  {
  }
}

/** The text `Toot` publishes for a state change; publishing itself is not modelled. */
module Notify {
  import opened Types

  const LeftPrefix: string := "Max left at "
  const HomePrefix: string := "Max has been home since "

  /** The state a published text announces, read back from its prefix. */
  function PostedState(post: string): Option<FlapState>
  {
    if LeftPrefix <= post then Some(Outside)
    else if HomePrefix <= post then Some(Inside)
    else None
  }

  /** The time stamp that follows the prefix of a published text. */
  function PostedTime(post: string): string
  {
    if LeftPrefix <= post then post[|LeftPrefix|..]
    else if HomePrefix <= post then post[|HomePrefix|..]
    else post
  }

  /**
   * The `switch (state)` of `Toot`: the text published for `state` at local time `time`
   * (`DateTime.Now` as `HH:mm:ss`), or nothing for Closed.
   */
  function TootMessage(state: FlapState, time: string): (post: Option<string>)
    ensures post.None? <==> state == Closed
    ensures state == Outside ==> post.Some? && LeftPrefix <= post.value
    ensures state == Inside ==> post.Some? && HomePrefix <= post.value
    ensures post.Some? ==> PostedState(post.value) == Some(state) && PostedTime(post.value) == time
  {
    match state
    case Outside =>
      assert (LeftPrefix + time)[|LeftPrefix|..] == time;
      Some(LeftPrefix + time)
    case Inside =>
      var post := HomePrefix + time;
      assert post[4] == 'h' != LeftPrefix[4];
      assert post[|HomePrefix|..] == time;
      Some(post)
    case Closed => None
  }

  /** Different states or different times never publish the same text. */
  lemma TootMessageInjective(s1: FlapState, t1: string, s2: FlapState, t2: string)
    requires TootMessage(s1, t1).Some? && TootMessage(s1, t1) == TootMessage(s2, t2)
    ensures s1 == s2 && t1 == t2
  {
  }
}

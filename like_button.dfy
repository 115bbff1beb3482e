/** The like button (src/components/LikeButton.jsx): an optimistic toggle
    that flips the heart and the counter at once, then keeps the server's
    answer or rolls back to a saved snapshot when the request fails. The
    request is not modelled: its outcome is the `Reply` given to `Settle`. */
module LikeButton {
  import opened TextUtil
  import Server

  /** The component's three state fields. */
  datatype LikeState = LikeState(liked: bool, count: int, loading: bool)

  /** The values saved before the optimistic update (`previousLiked`,
      `previousCount`). */
  datatype Snapshot = Snapshot(liked: bool, count: int)

  /** How the like request ended: the server's `liked` answer, or a failure
      (a non-OK status or a network error). */
  datatype Reply = Answered(liked: bool) | Failed

  /** A JavaScript default parameter: `undefined` takes the default. */
  function WithDefault<T>(v: Option<T>, default: T): (r: T)
    ensures v.Some? ==> r == v.value
    ensures v.None? ==> r == default
  {
    if v.Some? then v.value else default
  }

  /** What the mount effect does: take the props, or ask the server. */
  datatype MountAction = UseProps(liked: bool, count: int) | AskServer

  /** The mount effect. It tests the parameters after their defaults
      (`false` and `0`) were applied, so neither is ever `undefined`. */
  function MountEffect(initialLiked: Option<bool>, initialCount: Option<int>): (r: MountAction)
    ensures r == UseProps(WithDefault(initialLiked, false), WithDefault(initialCount, 0))
  {
    var liked := Some(WithDefault(initialLiked, false));
    var count := Some(WithDefault(initialCount, 0));
    if liked.Some? && count.Some? then UseProps(liked.value, count.value) else AskServer
  }

  /** The server check in the mount effect is never reached. */
  lemma NeverAsksServer(initialLiked: Option<bool>, initialCount: Option<int>)
    ensures MountEffect(initialLiked, initialCount) != AskServer
  {
  }

  /** The state after mounting. */
  function InitialState(initialLiked: Option<bool>, initialCount: Option<int>): (r: LikeState)
    ensures !r.loading
    ensures r.liked == WithDefault(initialLiked, false) && r.count == WithDefault(initialCount, 0)
  {
    match MountEffect(initialLiked, initialCount)
    case UseProps(l, c) => LikeState(l, c, false)
    case AskServer => LikeState(WithDefault(initialLiked, false), WithDefault(initialCount, 0), false)
  }

  /** The effect again, re-run whenever `projectId`, `initialLiked` or
      `initialCount` changes: it overwrites `liked` and `count` with the
      defaulted props, also while a request is in flight, and leaves
      `loading` alone. */
  function PropsChanged(s: LikeState, initialLiked: Option<bool>, initialCount: Option<int>): (r: LikeState)
    ensures r.loading == s.loading
    ensures r.liked == WithDefault(initialLiked, false) && r.count == WithDefault(initialCount, 0)
  {
    match MountEffect(initialLiked, initialCount)
    case UseProps(l, c) => s.(liked := l, count := c)
    case AskServer => s
  }

  /** A parent that passes only the count turns the heart off whenever the
      count changes; a request in flight then settles on the new count, with
      the server's answer or the snapshot taken before the change. */
  lemma CountOnlyPropsResetHeart(s: LikeState, count: int, saved: Snapshot, reply: Reply)
    ensures !PropsChanged(s, None, Some(count)).liked
    ensures s.loading ==> PropsChanged(s, None, Some(count)).loading
    ensures reply.Answered? ==>
              Settle(PropsChanged(s, None, Some(count)), saved, reply) == LikeState(reply.liked, count, false)
  {
  }

  /** The synchronous part of `handleToggleLike`: without a token or while a
      request is in flight nothing happens (no snapshot, no request);
      otherwise the heart flips, the count follows, and the old values are
      saved. */
  function BeginToggle(s: LikeState, hasToken: bool): (r: (LikeState, Option<Snapshot>))
    ensures !hasToken || s.loading ==> r == (s, None)
    ensures hasToken && !s.loading ==>
              r.1 == Some(Snapshot(s.liked, s.count))
              && r.0.loading && r.0.liked == !s.liked
              && r.0.count == (if s.liked then s.count - 1 else s.count + 1)
  {
    if !hasToken || s.loading then (s, None)
    else (LikeState(!s.liked, if s.liked then s.count - 1 else s.count + 1, true), Some(Snapshot(s.liked, s.count)))
  }

  /** The asynchronous part: the server's `liked` replaces the optimistic
      one (the count stays optimistic); a failure restores the snapshot.
      Either way loading ends. */
  function Settle(s: LikeState, saved: Snapshot, reply: Reply): (r: LikeState)
    ensures !r.loading
    ensures reply.Failed? ==> r.liked == saved.liked && r.count == saved.count
    ensures reply.Answered? ==> r.liked == reply.liked && r.count == s.count
  {
    match reply
    case Answered(l) => s.(liked := l, loading := false)
    case Failed => LikeState(saved.liked, saved.count, false)
  }

  /** A failed toggle leaves the button exactly as it was. */
  lemma FailedToggleRestores(s: LikeState)
    requires !s.loading
    ensures var (m, snap) := BeginToggle(s, true);
            snap.Some? && Settle(m, snap.value, Failed) == s
  {
  }

  /** A second press while the first request is in flight is ignored. */
  lemma PressWhileLoadingIgnored(s: LikeState, hasToken: bool)
    requires !s.loading
    ensures var m := BeginToggle(s, true).0;
            BeginToggle(m, hasToken) == (m, None)
  {
  }

  /** The reply the button sees for the like handler's answer: a 500 makes
      `response.ok` false, which the button treats as a failure. */
  function ReplyOf(answer: Server.LikeResult): (r: Reply)
    ensures r.Failed? <==> answer.LikeFailed500?
    ensures r.Answered? ==> r.liked == answer.liked
  {
    match answer
    case LikeAnswered(l) => Answered(l)
    case LikeFailed500 => Failed
  }

  /** Against the server's toggle: when the button showed the server's
      state, it shows the server's state again after the reply. An answer
      confirms the optimistic flip, with the count moved by one towards it;
      a 500 (a like on a missing project) rolls the button back. */
  lemma AgreesWithServer(s: LikeState, social: Server.Social, user: int, project: int, owner: Option<int>)
    requires !s.loading && s.liked == ((user, project) in social.likes)
    ensures var (m, snap) := BeginToggle(s, true);
            var (after, answer) := Server.LikeStep(social, user, project, owner);
            var r := Settle(m, snap.value, ReplyOf(answer));
            r.liked == ((user, project) in after.likes)
            && (answer.LikeAnswered? ==>
                  r.liked == !s.liked && r.count == (if r.liked then s.count + 1 else s.count - 1))
            && (answer.LikeFailed500? ==> r == s)
  {
  }

  /** The button's state fields and the snapshot its pending request closes
      over. */
  class LikeButtonState {
    var liked: bool
    var count: int
    var loading: bool
    var saved: Snapshot

    function State(): LikeState
      reads this
    {
      LikeState(liked, count, loading)
    }

    /** `useState(initialLiked)`, `useState(initialCount)`,
        `useState(false)`, then the mount effect. */
    constructor (initialLiked: Option<bool>, initialCount: Option<int>)
      ensures State() == InitialState(initialLiked, initialCount)
    {
      liked := WithDefault(initialLiked, false);
      count := WithDefault(initialCount, 0);
      loading := false;
      saved := Snapshot(false, 0);
      var action := MountEffect(initialLiked, initialCount);
      if action.UseProps? {
        liked := action.liked;
        count := action.count;
      }
    }

    /** `handleToggleLike` up to the request; `sent` tells whether a
        request was sent. */
    method HandleToggleLike(hasToken: bool) returns (sent: bool)
      modifies this
      ensures var (s, snap) := BeginToggle(old(State()), hasToken);
              State() == s && sent == snap.Some?
              && (sent ==> saved == snap.value) && (!sent ==> saved == old(saved))
    {
      if !hasToken {
        return false;
      }
      if loading {
        return false;
      }
      saved := Snapshot(liked, count);
      count := if liked then count - 1 else count + 1;
      liked := !liked;
      loading := true;
      sent := true;
    }

    /** The effect's re-run on new props. */
    method OnPropsChange(initialLiked: Option<bool>, initialCount: Option<int>)
      modifies this
      ensures State() == PropsChanged(old(State()), initialLiked, initialCount)
      ensures State() == old(State()).(liked := WithDefault(initialLiked, false), count := WithDefault(initialCount, 0))
      ensures saved == old(saved)
    {
      var action := MountEffect(initialLiked, initialCount);
      if action.UseProps? {
        liked := action.liked;
        count := action.count;
      }
    }

    /** The rest of `handleToggleLike`, once the request has ended. */
    method OnReply(reply: Reply)
      modifies this
      ensures State() == Settle(old(State()), old(saved), reply)
      ensures saved == old(saved)
    {
      match reply {
        case Answered(l) =>
          liked := l;
        case Failed =>
          liked := saved.liked;
          count := saved.count;
      }
      loading := false;
    }
  }
}

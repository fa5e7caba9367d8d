/** PostCard: a feed entry with a local like toggle. */
module PostCard {
  import opened Wrappers

  /** The props PostCard is mounted with (display-only props are left out). */
  datatype Props = Props(likes: int, comments: int, isLiked: bool)

  /** The two local state fields the heart button updates. */
  datatype LikeState = LikeState(isLiked: bool, likesCount: int)

  /** The state a card starts from: its props as given. */
  function Initial(props: Props): LikeState {
    LikeState(props.isLiked, props.likes)
  }

  /** One tap on the heart: the flag flips, and the count moves one step in
      the direction of the new flag. */
  function Tap(s: LikeState): (r: LikeState)
    ensures r.isLiked != s.isLiked
    ensures r.likesCount == (if r.isLiked then s.likesCount + 1 else s.likesCount - 1)
  {
    LikeState(!s.isLiked, if s.isLiked then s.likesCount - 1 else s.likesCount + 1)
  }

  /** The count always equals the prop count, plus one for a like the user
      added or minus one for a like the user removed. */
  predicate Consistent(props: Props, s: LikeState) {
    s.likesCount == props.likes + (if s.isLiked then 1 else 0) - (if props.isLiked then 1 else 0)
  }

  /** A card starts consistent and every tap keeps it so. */
  lemma TapKeepsConsistent(props: Props, s: LikeState)
    ensures Consistent(props, Initial(props))
    ensures Consistent(props, s) ==> Consistent(props, Tap(s))
  {
  }

  /** Two taps in a row restore both fields. */
  lemma TapTwiceRestores(s: LikeState)
    ensures Tap(Tap(s)) == s
  {
  }

  /** `n` taps in a row. */
  function Taps(s: LikeState, n: nat): LikeState {
    if n == 0 then s else Tap(Taps(s, n - 1))
  }

  /** After an even number of taps the card is as it was; after an odd number
      it is as after one tap. */
  lemma {:induction false} TapsParity(s: LikeState, n: nat)
    ensures Taps(s, n) == if n % 2 == 0 then s else Tap(s)
  {
    if n > 0 {
      TapsParity(s, n - 1);
      TapTwiceRestores(s);
    }
  }

  /** The example of a post with 120 likes, not liked: one tap shows 121 and a
      filled heart; a second shows 120 and an outlined heart again. */
  lemma LikeExample(props: Props)
    requires props.likes == 120 && !props.isLiked
    ensures Tap(Initial(props)) == LikeState(true, 121)
    ensures Tap(Tap(Initial(props))) == LikeState(false, 120)
  {
  }

  /** The "View all comments" link appears only for posts with comments. */
  predicate ShowsCommentsLink(props: Props) {
    props.comments > 0
  }

  /** What a card shows that can vary: whether the heart is filled, the like
      count, and the comments link with its count when it is shown. */
  datatype CardView = CardView(heartFilled: bool, likesShown: int, commentsLink: Option<int>)

  function Render(props: Props, s: LikeState): CardView {
    CardView(s.isLiked, s.likesCount, if ShowsCommentsLink(props) then Some(props.comments) else None)
  }

  /** Tapping the heart any number of times changes only the heart and the
      count, by the parity of the taps, and never the comments link, which is
      shown exactly when the post has comments. */
  lemma TapsChangeOnlyHeartAndCount(props: Props, s: LikeState, n: nat)
    ensures var v := Render(props, Taps(s, n));
      && v.heartFilled == (if n % 2 == 0 then s.isLiked else !s.isLiked)
      && v.likesShown == (if n % 2 == 0 then s.likesCount
                          else if s.isLiked then s.likesCount - 1 else s.likesCount + 1)
      && v.commentsLink == Render(props, s).commentsLink
      && (v.commentsLink.Some? <==> props.comments > 0)
      && (v.commentsLink.Some? ==> v.commentsLink.value == props.comments)
  {
    TapsParity(s, n);
  }

  /** One mounted PostCard. `onLikeCalls` counts the calls made to the
      `onLike` prop. */
  class Card {
    const props: Props
    var isLiked: bool
    var likesCount: int
    ghost var onLikeCalls: nat

    function State(): LikeState
      reads this
    {
      LikeState(isLiked, likesCount)
    }

    ghost predicate Valid()
      reads this
    {
      Consistent(props, State())
    }

    /** useState(initialIsLiked), useState(likes). */
    constructor (props: Props)
      ensures this.props == props && State() == Initial(props) && onLikeCalls == 0
      ensures Valid()
    {
      this.props := props;
      isLiked := props.isLiked;
      likesCount := props.likes;
      onLikeCalls := 0;
    }

    /** handleLike: both fields are set from the values read before the tap,
        then `onLike` is called once. */
    method HandleLike()
      requires Valid()
      modifies this
      ensures Valid()
      ensures State() == Tap(old(State()))
      ensures onLikeCalls == old(onLikeCalls) + 1
    {
      var wasLiked := isLiked;
      isLiked := !wasLiked;
      likesCount := if wasLiked then likesCount - 1 else likesCount + 1;
      onLikeCalls := onLikeCalls + 1;
    }
  }
}

/** PostsScreen: the feed and its comment modal. */
module PostsFeed {
  import opened Wrappers
  import opened Text
  import opened Ui

  /** A feed entry of the posts fixture. */
  datatype Post = Post(
    id: string, username: string, userImage: string, postImage: string,
    caption: string, location: string, likes: int, comments: int,
    timestamp: string, isLiked: bool)

  /** Local state of PostsScreen. */
  class Screen {
    var posts: seq<Post>
    var commentModalVisible: bool
    var selectedPostId: Option<string>
    var commentText: string

    /** The comment modal is only ever open for a selected post. */
    ghost predicate Valid()
      reads this
    {
      commentModalVisible ==> selectedPostId.Some?
    }

    constructor (initialPosts: seq<Post>)
      ensures Valid()
      ensures posts == initialPosts && !commentModalVisible
      ensures selectedPostId == None && commentText == []
    {
      posts := initialPosts;
      commentModalVisible := false;
      selectedPostId := None;
      commentText := [];
    }

    /** handleLike only logs the post id; no screen state changes. */
    method HandleLike(postId: string) returns (logged: string)
      ensures logged == "Liked post: " + postId
    {
      logged := "Liked post: " + postId;
    }

    /** handleShare only shows the coming-soon alert; no screen state changes. */
    method HandleShare(postId: string) returns (alert: Alert)
      ensures alert == Alert("Share", "Share functionality coming soon!")
    {
      alert := Alert("Share", "Share functionality coming soon!");
    }

    /** handleComment: select the post and open the modal; the draft is kept. */
    method HandleComment(postId: string)
      requires Valid()
      modifies this
      ensures Valid()
      ensures selectedPostId == Some(postId) && commentModalVisible
      ensures posts == old(posts) && commentText == old(commentText)
    {
      selectedPostId := Some(postId);
      commentModalVisible := true;
    }

    /** onChangeText of the comment box. */
    method EditComment(text: string)
      modifies this
      ensures commentText == text
      ensures posts == old(posts) && commentModalVisible == old(commentModalVisible)
      ensures selectedPostId == old(selectedPostId)
    {
      commentText := text;
    }

    /** submitComment: a blank draft changes nothing and shows nothing;
        otherwise the success alert is shown, the draft is cleared and the
        modal closes, with the selection and the posts left as they were. The
        comment is not sent anywhere. */
    method SubmitComment() returns (alert: Option<Alert>)
      requires Valid()
      modifies this
      ensures Valid()
      ensures posts == old(posts) && selectedPostId == old(selectedPostId)
      ensures IsBlank(old(commentText)) ==>
        alert == None && commentText == old(commentText) && commentModalVisible == old(commentModalVisible)
      ensures !IsBlank(old(commentText)) ==>
        alert == Some(Alert("Success", "Comment posted!")) && commentText == [] && !commentModalVisible
    {
      TrimEmptyIffBlank(commentText);
      if Trim(commentText) != [] {
        alert := Some(Alert("Success", "Comment posted!"));
        commentText := [];
        commentModalVisible := false;
      } else {
        alert := None;
      }
    }

    /** The X button and the modal's onRequestClose: hide the modal, keep the draft. */
    method CloseModal()
      requires Valid()
      modifies this
      ensures Valid()
      ensures !commentModalVisible
      ensures posts == old(posts) && selectedPostId == old(selectedPostId) && commentText == old(commentText)
    {
      commentModalVisible := false;
    }
  }
}

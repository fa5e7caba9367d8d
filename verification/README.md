# TGuide front-end: screen logic in Dafny

TGuide is a React Native travel app: a destination browser, a social feed,
a scripted "AI Travel Assistant" chat, and profile and password-reset forms.
This project models the decision and state-update rules inside its screens.

- **Chat responder.** `generateBotResponse` is a pure keyword dispatch over the lower-cased message, giving one of five replies.
- **Chat transcript.** Sending appends the user's message now and the bot's reply when a timer fires later.
- **Like toggle.** The PostCard heart button flips `isLiked` and moves `likesCount` by one.
- **Form validators.** New post, edit profile and forgot password each run an ordered chain of early-return checks, then set a loading flag around one request.
- **Comment modal.** The posts feed keeps the modal's visibility, the selected post and the draft text.
- **State lookup.** The state details screen finds a state by id in the fixture list.

Layout, one module per source file plus shared helpers:

| file | module | models |
|---|---|---|
| `wrappers.dfy` | `Wrappers` | Option, Result, Outcome |
| `ui.dfy` | `Ui` | alerts; a submit button's outcome (blocked by an alert, or one request sent) |
| `text.dfy` | `Text` | `trim`, ASCII `toLowerCase`, `includes`, the ECMAScript whitespace set |
| `first_match.dfy` | `FirstMatch` | ordered rule tables, first match wins |
| `chatbot.dfy` | `ChatBot` | `ChatBotScreen.tsx` |
| `post_card.dfy` | `PostCard` | `PostCard.tsx` |
| `create_post.dfy` | `CreatePost` | `CreatePostScreen.tsx` |
| `edit_profile.dfy` | `EditProfile` | `EditProfileScreen.tsx` |
| `forgot_password.dfy` | `ForgotPassword` | `ForgotPasswordScreen.tsx` |
| `posts_screen.dfy` | `PostsFeed` | `PostsScreen.tsx` |
| `state_details.dfy` | `StateDetails` | `StateDetailsScreen.tsx` |

How the model is built:

- Pure code (the responder, the check chains, the lookup) is written as functions.
- React state that the handlers set is written as classes whose methods change fields.
- Each validation chain (new post, edit profile, forgot password) is proved equal to an independent reference: a table of (condition, outcome) rules evaluated first-failure-wins.
- The responder is proved equal to a table of topics with their keywords, in priority order.

Asynchronous handlers are split in two steps:

- The first step validates and, when the checks pass, sets `loading` and returns the request payload.
- The second step is the request settling. It clears `loading` whether the request succeeded or failed, and returns the alert.

The chat reply timer is its own step, `DeliverReply`. Several sends can be pending at once: nothing stops a second send before the first reply arrives. Timers of equal delay fire in the order they were scheduled, so pending texts form a queue. The invariant `Consistent` says three things:

- Every user message is answered, in order, by the reply to its own text, except the pending ones.
- The transcript opens with the one greeting.
- The typing indicator is shown only while a reply is pending.

Any reply clears `loading`, even while later replies are still pending. So the invariant is `loading ==> pending != []`, not an equivalence.

## Model

| member | source | states |
|---|---|---|
| `ChatBot.BotReply` | frontend/screens/tabs/ChatBotScreen.tsx:47-67 | Total: one of five replies for every message, the empty one included. Goa whenever the lower-cased text includes "goa". Kerala exactly when "kerala" and not "goa". Budget exactly when "budget" or "cheap" and neither earlier keyword. Food exactly when "restaurant" or "food" and no earlier keyword. Fallback exactly when none occurs |
| `ChatBot.BotReplyFollowsTable` | frontend/screens/tabs/ChatBotScreen.tsx:47-67 | The if-chain equals a first-match lookup in the ordered topic/keyword table, with fallback |
| `ChatBot.FirstMentionedTopicWins` | frontend/screens/tabs/ChatBotScreen.tsx:50-64 | The first topic in priority order that the message mentions decides the reply, whatever later topics it mentions |
| `ChatBot.FallbackIffNoTopic` | frontend/screens/tabs/ChatBotScreen.tsx:66 | The fallback reply is given exactly when no topic's keyword occurs |
| `ChatBot.BotReplyIgnoresCase` | frontend/screens/tabs/ChatBotScreen.tsx:48 | Messages that differ only in letter case get the same reply |
| `ChatBot.KeralaBeforeBudget` | frontend/screens/tabs/ChatBotScreen.tsx:54-60 | "kerala budget" gets Kerala, not Budget |
| `ChatBot.GoaBeforeBudget` | frontend/screens/tabs/ChatBotScreen.tsx:48-52 | "Tell me about Goa on a budget" gets Goa |
| `ChatBot.SendKeepsConsistent` | frontend/screens/tabs/ChatBotScreen.tsx:72-84 | Appending a user message keeps the transcript invariant, with that text now pending and loading set |
| `ChatBot.DeliverKeepsConsistent` | frontend/screens/tabs/ChatBotScreen.tsx:86-98 | Appending the reply to the oldest pending text keeps the invariant, with that text now answered and loading cleared |
| `ChatBot.ChatScreen.constructor` | frontend/screens/tabs/ChatBotScreen.tsx:29-41 | The transcript starts as exactly one bot greeting, with empty input and no reply pending. The suggestions are shown |
| `ChatBot.ChatScreen.HandleSend` | frontend/screens/tabs/ChatBotScreen.tsx:69-85 | Whitespace-only input changes nothing. A press while the button is disabled changes no message. Otherwise it appends exactly one user message with the text as typed (untrimmed), clears the input, sets loading and queues the text for a reply. After a non-blank send the suggestions are no longer shown |
| `ChatBot.ChatScreen.DeliverReply` | frontend/screens/tabs/ChatBotScreen.tsx:86-98 | Appends exactly one bot message, whose reply is for the text as sent (not the cleared input). Earlier messages keep their order, loading is cleared and the input is untouched |
| `ChatBot.ChatScreen.CanSend` | frontend/screens/tabs/ChatBotScreen.tsx:202 | The send button is enabled exactly when the input is not blank |
| `ChatBot.ChatScreen.ChangeText` | frontend/screens/tabs/ChatBotScreen.tsx:190-193 | Typing sets the input only |
| `ChatBot.ChatScreen.HandleSuggestion` | frontend/screens/tabs/ChatBotScreen.tsx:101-103 | A suggestion replaces the input and sends nothing |
| `Text.TrimStart` | frontend/screens/tabs/ChatBotScreen.tsx:70 | Drops exactly a whitespace-only prefix; the rest does not start with whitespace |
| `Text.TrimEnd` | frontend/screens/tabs/ChatBotScreen.tsx:70 | Drops exactly a whitespace-only suffix; the rest does not end with whitespace |
| `Text.TrimEmptyIffBlank` | frontend/screens/tabs/ChatBotScreen.tsx:70 | `!s.trim()` holds exactly when s is empty or whitespace only |
| `Text.ToLower` | frontend/screens/tabs/ChatBotScreen.tsx:48 | Same length; no upper-case ASCII letter remains |
| `Text.ToLowerIgnoresCase` | frontend/screens/tabs/ChatBotScreen.tsx:48 | Strings equal up to ASCII letter case lower-case to the same string |
| `Text.IncludesIff` | frontend/screens/tabs/ChatBotScreen.tsx:50 | `s.includes(t)` holds exactly when t occurs in s at some index |
| `PostCard.Tap` | frontend/components/PostCard.tsx:48-50 | A tap flips isLiked. The count goes up by one when the post was not liked before the tap and down by one when it was |
| `PostCard.TapKeepsConsistent` | frontend/components/PostCard.tsx:45-51 | `likesCount == likes + (isLiked ? 1 : 0) - (initialIsLiked ? 1 : 0)` holds at mount and after every tap |
| `PostCard.TapTwiceRestores` | frontend/components/PostCard.tsx:48-51 | Two taps restore both isLiked and likesCount |
| `PostCard.TapsParity` | frontend/components/PostCard.tsx:48-51 | After an even number of taps the card is unchanged; after an odd number it is as after one tap |
| `PostCard.LikeExample` | frontend/components/PostCard.tsx:45-50 | 120 likes, not liked: one tap gives 121 and liked; a second gives 120 and not liked |
| `PostCard.TapsChangeOnlyHeartAndCount` | frontend/components/PostCard.tsx:72-106 | Any number of taps changes only the heart and the like count, by the parity of the taps. The "View all comments" link with its count stays as it was, and is shown exactly when comments > 0 |
| `PostCard.Card.constructor` | frontend/components/PostCard.tsx:45-46 | The local state starts from the isLiked and likes props; the invariant holds |
| `PostCard.Card.HandleLike` | frontend/components/PostCard.tsx:48-52 | The state becomes one tap of the old state, the invariant is kept, and onLike is called exactly once |
| `CreatePost.CheckPostOutcomes` | frontend/screens/CreatePostScreen.tsx:33-53 | No image fails with the image error before anything else. With an image, a blank caption fails with the caption error. With both, a blank location fails with the location error. The form {caption, location} as typed, with no image, is produced exactly when all three are present |
| `CreatePost.CheckPostIsFirstFailure` | frontend/screens/CreatePostScreen.tsx:33-46 | The chain reports the first failing check of the ordered table (image, caption, location) |
| `CreatePost.SelectedImagePasses` | frontend/screens/CreatePostScreen.tsx:26-37 | After the placeholder image is selected, the image check passes |
| `CreatePost.Screen.constructor` | frontend/screens/CreatePostScreen.tsx:21-24 | Empty caption and location, no image, not loading |
| `CreatePost.Screen.ChangeCaption` | frontend/screens/CreatePostScreen.tsx:113 | Typing sets the caption only |
| `CreatePost.Screen.ChangeLocation` | frontend/screens/CreatePostScreen.tsx:139 | Typing sets the location only |
| `CreatePost.Screen.HandleSelectImage` | frontend/screens/CreatePostScreen.tsx:26-31 | The selection becomes the fixed placeholder URL and the info alert is shown; other fields unchanged |
| `CreatePost.Screen.HandleSubmit` | frontend/screens/CreatePostScreen.tsx:33-53 | A failed check returns its error alert, sends nothing and leaves loading false. Otherwise it sends the checked form and sets loading. The fields are unchanged |
| `CreatePost.Screen.FinishSubmit` | frontend/screens/CreatePostScreen.tsx:53-62 | Loading is cleared whether the request succeeded or failed; the success or failure alert is shown |
| `EditProfile.CheckProfileOutcomes` | frontend/screens/EditProfileScreen.tsx:32-48 | A blank name fails with the name error. A non-blank name with a blank username fails with the username error. Otherwise the update {id, name, username, bio} is produced, as typed |
| `EditProfile.BioNeverChecked` | frontend/screens/EditProfileScreen.tsx:32-48 | The bio never affects acceptance; an empty bio still leads to the update |
| `EditProfile.CheckProfileIsFirstFailure` | frontend/screens/EditProfileScreen.tsx:33-40 | The chain reports the first failing check of the ordered table (name, username) |
| `EditProfile.Screen.constructor` | frontend/screens/EditProfileScreen.tsx:22-26 | Name, username, bio and image start as the profile fixture's values; not loading |
| `EditProfile.Screen.ChangeName` | frontend/screens/EditProfileScreen.tsx:111 | Typing sets the name only |
| `EditProfile.Screen.ChangeUsername` | frontend/screens/EditProfileScreen.tsx:131 | Typing sets the username only |
| `EditProfile.Screen.ChangeBio` | frontend/screens/EditProfileScreen.tsx:150 | Typing sets the bio only |
| `EditProfile.Screen.HandleChangePhoto` | frontend/screens/EditProfileScreen.tsx:28-30 | Only the info alert is shown: no field changes, including profileImage |
| `EditProfile.Screen.HandleSave` | frontend/screens/EditProfileScreen.tsx:32-48 | A failed check returns its alert, sends nothing and leaves loading false. Otherwise it sends the update for the fixture's id and sets loading |
| `EditProfile.Screen.FinishSave` | frontend/screens/EditProfileScreen.tsx:49-57 | Loading is cleared whether the request succeeded or failed; the success or failure alert is shown |
| `ForgotPassword.EmailRegexIff` | frontend/screens/auth/ForgotPasswordScreen.tsx:30-31 | `/^[^\s@]+@[^\s@]+\.[^\s@]+$/` matches exactly when there is no whitespace, exactly one '@' with a non-empty part before it, and a '.' after the '@' that is neither first nor last in that part |
| `ForgotPassword.ValidateFormOutcomes` | frontend/screens/auth/ForgotPasswordScreen.tsx:25-36 | A blank email gets the empty error and never the format error. A non-blank email passes exactly when it is email-shaped |
| `ForgotPassword.ValidateFormIsFirstFailure` | frontend/screens/auth/ForgotPasswordScreen.tsx:25-36 | validateForm reports the first failing check of the ordered table (empty, then format) and passes only when both pass |
| `ForgotPassword.PaddedEmailRejected` | frontend/screens/auth/ForgotPasswordScreen.tsx:31 | The format check sees the untrimmed email, so a leading or trailing space fails validation |
| `ForgotPassword.Screen.constructor` | frontend/screens/auth/ForgotPasswordScreen.tsx:22-23 | Empty email, not loading |
| `ForgotPassword.Screen.ChangeEmail` | frontend/screens/auth/ForgotPasswordScreen.tsx:96 | Typing sets the email only |
| `ForgotPassword.Screen.HandleResetPassword` | frontend/screens/auth/ForgotPasswordScreen.tsx:38-43 | forgotPassword is called with the email as typed only when validation passes, and then loading is set. Otherwise the alert is returned and nothing is sent |
| `ForgotPassword.Screen.FinishReset` | frontend/screens/auth/ForgotPasswordScreen.tsx:43-54 | Loading is cleared whether the call succeeded or failed; the success or failure alert is shown |
| `PostsFeed.Screen.constructor` | frontend/screens/tabs/PostsScreen.tsx:22-25 | Posts from the fixture; modal hidden, nothing selected, empty draft |
| `PostsFeed.Screen.HandleLike` | frontend/screens/tabs/PostsScreen.tsx:27-29 | Only logs the post id; no screen state changes |
| `PostsFeed.Screen.HandleShare` | frontend/screens/tabs/PostsScreen.tsx:36-38 | Only shows the coming-soon alert; no screen state changes |
| `PostsFeed.Screen.HandleComment` | frontend/screens/tabs/PostsScreen.tsx:31-34 | Selects the post and opens the modal; posts and draft unchanged |
| `PostsFeed.Screen.EditComment` | frontend/screens/tabs/PostsScreen.tsx:125-126 | Typing sets the draft only |
| `PostsFeed.Screen.SubmitComment` | frontend/screens/tabs/PostsScreen.tsx:44-50 | A blank draft changes nothing: no alert, modal still open, text kept. Otherwise the draft is cleared and the modal hidden, with the selection and the posts unchanged |
| `PostsFeed.Screen.CloseModal` | frontend/screens/tabs/PostsScreen.tsx:90-110 | The X button and onRequestClose hide the modal and keep the draft and the selection |
| `StateDetails.Find` | frontend/screens/StateDetailsScreen.tsx:20 | A found state has the requested id and is in the fixture. Nothing is found exactly when no fixture has that id |
| `StateDetails.FindReturnsFirst` | frontend/screens/StateDetailsScreen.tsx:20 | The lookup returns the first fixture in list order whose id matches |
| `StateDetails.Render` | frontend/screens/StateDetailsScreen.tsx:20-30 | An unknown id renders "not found" rather than failing. Otherwise the details of the matching state are rendered |
| `StateDetails.RepeatedParamNotFound` | frontend/screens/StateDetailsScreen.tsx:18-20 | A route parameter that arrives as an array never equals a string id, so it renders "not found" |

## Left out

- Unicode case mapping: `toLowerCase` is modelled for ASCII letters only. For example, JavaScript lower-cases the Kelvin sign to "k", which this model does not.
- Reply texts: the five multi-line emoji reply texts are replaced by the `Reply` datatype.
- Message ids and timestamps: `Date.now()` ids and `toLocaleTimeString` timestamps are clock readings passed in as `now`.
- The 1000 ms delay: the model only fixes the order in which reply timers fire, first scheduled first fired.
- Text input limits: the `maxLength={500}` limits on the text inputs are not modelled.
- Render-only output: the typing bubble, scrolling, theme colours and `toLocaleString` count formatting are not modelled.
- Navigation: `router.back()` after a success alert, `router.push('/create-post')` (`handleCreatePost`) and console logging of errors are not modelled.
- HTTP client: frontend/services/api.ts is not part of this model. A request is its payload, and whether it succeeded is a parameter of the settle step.
- Button disabled while loading: the start steps require `loading` to be false, because CustomButton ignores presses while loading (frontend/components/CustomButton.tsx:66).
- Updates after unmount: a response or timer arriving after the screen unmounts is not modelled.
- Fixtures: the DummyData fixtures (states, posts, user profile, chat suggestions) are not part of this model. They are parameters.
- Other screens and components: MapScreen, ProfileScreen, HomeScreen, StateCard, ChatBubble, CustomButton styling, the theme provider and the route table are not part of this model.
- PostsFeed.Screen.HandleLike: returns the logged line instead of writing to the console.

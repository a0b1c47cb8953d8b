# pixeltales core, modelled in Dafny

pixeltales is a Django application with three parts, and this project models the decision logic of each:

- **The social network.**
  - Users send, accept and reject friend requests and remove friends.
  - They like and unlike posts, and comment on them.
  - Authors edit and delete their own posts.
  - Notifications are raised through four signals and marked read by their recipient.
  - Forms validate their fields; a middleware sends anonymous visitors to the login page; a serializer merges partial updates into a post.
- **The AI pipeline.** It turns a prompt into a video record:
  - a chat completion is cut into five numbered scene descriptions, with mock storylines as the fallback;
  - images are requested for the descriptions, and the view only checks that some came back;
  - five picsum images, one per seed, are downloaded and stored under `/media/` (the remote picsum URL stands in when a download or the folder fails);
  - placeholder videos are created;
  - the record is saved.
- **Chat.**
  - Rooms have participant sets and a WebSocket group name.
  - Opening a room marks its messages read; the room list and the badge count unread messages.
  - Private rooms are reused, and group rooms admit only the creator's friends.
  - A connecting socket is replayed the last 50 messages; a received message is saved and broadcast.

## How the model is organised

Tables are Dafny collections:

- The social network is a `Network` object holding `map`s of profiles, posts, friend requests and notifications, a `seq` of comments, and the `seq` of notification records the signals have enqueued.
- The chat is a `ChatStore` object holding rooms by id and messages in insertion order.
- Profiles, posts, chat rooms and the nested video record are classes, because the source updates their fields in place.
- Requests, notifications and messages are values.

Each handler is a method. Its `ensures` gives:

- the response for every guard;
- the new state of each table;
- a statement that nothing else changes.

Those new states are stated through specification functions (`Befriend`, `Unfriend`, `Toggle`, `MarkRoomRead`, `Window`, `KeptLines`, `Normalized`, ...), and lemmas prove what the application promises about those functions.

Everything outside the program is a parameter:

- the clock;
- the OpenAI completion and image calls;
- `random.choice`;
- the outcome of each directory creation, file write and download;
- base64 decoding;
- the pipeline's whole outside world (`AiViews.World`).

The modules follow the source files:

| module | models |
|---|---|
| `Text` | the Python string operations the code relies on |
| `SocialModels` | social_network/models.py |
| `SocialForms` | social_network/forms.py |
| `SocialMiddleware` | social_network/middleware.py |
| `SocialSignals` | social_network/signals.py |
| `SocialSerializers` | social_network/serializers.py |
| `SocialViews` | social_network/views/fbv.py |
| `AiGpt` | ai/gpt.py |
| `AiStorage` | ai/s3_utils.py |
| `AiViews` | ai/views/cbv.py and ai/models.py |
| `ChatModels` | chat/models.py |
| `ChatViews` | chat/views.py |
| `ChatConsumers` | chat/consumers.py |

## Model

| member | source | states |
|---|---|---|
| Text.DigitChar | ai/s3_utils.py:88 | the character of one decimal digit is a digit with that value |
| Text.Decimal | ai/s3_utils.py:80-88 | `str(n)` of a non-negative integer is a non-empty string of digits |
| Text.DecimalRoundTrip | ai/s3_utils.py:88 | reading back the decimal digits gives the number |
| Text.DecimalInjective | ai/s3_utils.py:88 | different numbers have different decimal spellings |
| Text.ReplaceBackslashes | ai/s3_utils.py:109 | `replace('\\', '/')` keeps the length, turns every backslash into a slash in place, and leaves no backslash |
| Text.ReplaceBackslashesKeeps | ai/s3_utils.py:109 | every character other than a backslash is kept in place |
| Text.ReplaceBackslashesPrefix | ai/s3_utils.py:109-110 | a prefix without backslashes survives the replacement |
| Text.StripLeft | ai/gpt.py:71 | drops exactly the leading whitespace: the result is a suffix, whatever was dropped is whitespace, and the result does not start with whitespace |
| Text.StripRight | ai/gpt.py:71 | drops exactly the trailing whitespace, symmetrically |
| Text.Strip | ai/gpt.py:71 | `strip()`: the result neither starts nor ends with whitespace and is no longer than the input |
| Text.StripUnchanged | ai/gpt.py:71 | a string without surrounding whitespace is its own strip |
| Text.Split | ai/gpt.py:67 | `split('\n')` gives at least one piece and no piece holds the separator |
| Text.SplitJoin | ai/gpt.py:67 | joining the pieces with the separator gives back the text |
| Text.JoinSplit | ai/gpt.py:67 | splitting joined separator-free pieces gives back the pieces |
| Text.SplitWithoutSeparator | ai/gpt.py:67 | a text without the separator is one piece |
| Text.SplitAfterPiece | ai/gpt.py:67 | a piece followed by the separator comes out as the first piece |
| SocialModels.Profile.constructor | social_network/models.py:63-67 | a new profile belongs to its user, has no bio and no friends |
| SocialModels.Profile.AddFriend | social_network/models.py:76-79 | `add_friend(p)`: friends becomes old friends plus p; the bio is unchanged |
| SocialModels.Profile.RemoveFriend | social_network/models.py:81-84 | `remove_friend(p)`: friends becomes old friends minus p only |
| SocialModels.AddFriendIsOneWay | social_network/models.py:66 | friendship is not symmetric: adding b to a's friends leaves b's friends, and whether b lists a, as they were |
| SocialModels.VideoRecord.constructor | social_network/serializers.py:43 | a video record created from nested data holds exactly that data |
| SocialModels.VideoRecord.SetAttr | social_network/serializers.py:39-40 | `setattr` overwrites one attribute and keeps the others |
| SocialModels.Post.constructor | social_network/models.py:15-21 | a new post has its fields, the default image when none is given, and no likes |
| SocialModels.Toggle | social_network/views/fbv.py:185-192 | the user is in the new likes iff they were not before; every other user's membership is unchanged |
| SocialModels.ToggleTwice | social_network/views/fbv.py:185-192 | two toggles restore the original likes |
| SocialModels.ToggleCount | social_network/views/fbv.py:185-199 | a like adds exactly one to `total_likes` and an unlike removes exactly one |
| SocialForms.CleanPost | social_network/forms.py:15-21 | rejected with the title message iff a title is present and shorter than 5; otherwise the cleaned data comes back unchanged |
| SocialForms.CleanComment | social_network/forms.py:29-35 | rejected iff content is present and shorter than 3; otherwise unchanged |
| SocialForms.CleanProfileUpdate | social_network/forms.py:59-66 | rejected iff a bio is present and longer than 500; an absent or empty bio passes |
| SocialForms.CleanEmail | social_network/forms.py:45-51 | rejected iff the address is already in use; otherwise returned as it is |
| SocialForms.CleanIdempotent | social_network/forms.py:15-66 | data a clean hook accepted is accepted again with the same result |
| SocialForms.BioBoundary | social_network/forms.py:62-64 | a 500-character bio passes and a 501-character bio is refused |
| SocialMiddleware.Handle | social_network/middleware.py:17-24 | redirected to the login page iff anonymous and not on an exempt path; otherwise the downstream response is returned unchanged |
| SocialMiddleware.AuthenticatedPassesThrough | social_network/middleware.py:17-24 | an authenticated request reaches the handler whatever its path |
| SocialMiddleware.ExactlyTwoExemptPaths | social_network/middleware.py:7-21 | an anonymous request passes iff its path is the login or registration path, and those are two distinct paths |
| SocialSignals.NotificationFor | social_network/signals.py:14-51 | post events target the post and notify its author with the liker or commenter as actor; friend-request events carry no target |
| SocialSignals.SentNotifiesAddressee | social_network/signals.py:14-20 | a sent request notifies `to_user`, with `from_user` as actor and verb "sent you a friend request" |
| SocialSignals.AcceptedSwapsRoles | social_network/signals.py:14-29 | an acceptance's recipient and actor are the request notification's actor and recipient, swapped |
| SocialSignals.VerbIdentifiesEvent | social_network/signals.py:14-51 | equal verbs come from the same kind of event |
| SocialSignals.InsertAsWritten | social_network/tasks.py:13-19 | as written, the insert fails exactly when the record carries a content type that is not a number; otherwise it copies the record and is unread |
| SocialSignals.PostEventsNeverStored | social_network/signals.py:32-51 | as written, the insert fails exactly for like and comment notifications |
| SocialSignals.NewNotification | social_network/models.py:124-132 | the intended row copies the record, is unread, and has a target content type exactly when the record does: the id of the named model |
| SocialSignals.PostEventTargetsPost | social_network/signals.py:32-51 | a like or comment notification targets the post: the Post content type, the post's id and the post's author as recipient |
| SocialSignals.FriendEventsAgree | social_network/signals.py:14-29 | for friend-request records the intended row is the one inserted as written |
| SocialSerializers.Update | social_network/serializers.py:30-47 | each of title, content and image takes the given value, else the old one; without nested data the video record is untouched; with it, an existing record gets exactly the given attributes overwritten and a missing one is created from exactly that data; the same instance is returned |
| SocialSerializers.Create | social_network/serializers.py:21-28 | the new post has the given fields and a video record built from the nested data exactly when there is any |
| SocialViews.Befriend | social_network/views/fbv.py:383-384 | the same users have friend sets; each of the two gains exactly the other; every other user's friend set is unchanged |
| SocialViews.Unfriend | social_network/views/fbv.py:434-435 | the same users have friend sets; each of the two loses exactly the other; every other user's friend set is unchanged |
| SocialViews.UnfriendUndoesBefriend | social_network/views/fbv.py:380-441 | accepting between strangers and then removing the friend restores every friend set |
| SocialViews.BefriendUnfriendKeepMutual | social_network/views/fbv.py:380-441 | accept and remove keep friendship mutual when it was mutual before |
| SocialViews.CommentStepAsWritten | social_network/views/fbv.py:263-279 | as written, the signal is sent exactly on the requests that save no comment |
| SocialViews.OpeningCommentPageNotifies | social_network/views/fbv.py:276-278 | a plain GET of the comment page notifies the author without any comment |
| SocialViews.CommentStepIntended | social_network/views/fbv.py:265-278 | the author is notified iff a comment is saved, and one is saved iff the POST is valid |
| SocialViews.Network.SendFriendRequest | social_network/views/fbv.py:340-363 | unknown profile 404, self 400, duplicate 400, each with no change; otherwise 201, exactly the pair (caller, target) is added, the uniqueness invariant is kept, and the sent notification is enqueued |
| SocialViews.Network.Link | social_network/views/fbv.py:383-384 | the two profiles become friends of each other; every other friend set and every bio is unchanged |
| SocialViews.Network.Unlink | social_network/views/fbv.py:434-435 | the two profiles stop being friends; every other friend set and every bio is unchanged |
| SocialViews.Network.AcceptFriendRequest | social_network/views/fbv.py:377-395 | a request addressed to the caller befriends both ways, is deleted and enqueues the acceptance; any other id is 404 with no change; bios, posts, notifications, comments and the request counter never change |
| SocialViews.Network.RejectFriendRequest | social_network/views/fbv.py:405-415 | only the named request addressed to the caller is deleted, and friendships are untouched; otherwise 404 with no change; the request counter never changes |
| SocialViews.Network.RemoveFriend | social_network/views/fbv.py:425-444 | unknown profile 404, non-friend 400, each with no change; otherwise both directions and every request between the two are removed; bios and the request counter never change |
| SocialViews.Network.ToggleLike | social_network/views/fbv.py:184-192 | the caller's like on the post is toggled, `liked` holds iff it was absent, no other post's likes change and no post's title, content, image or video record changes |
| SocialViews.Network.LikePost | social_network/views/fbv.py:177-201 | missing post 404; otherwise likes are toggled, `liked` holds iff the user had not liked, `total_likes` is the new size, only a like notifies the author, and no other post field changes |
| SocialViews.Network.UpdatePostApi | social_network/views/fbv.py:102-124 | 404 for a missing post, 403 for a non-author, 400 for invalid data, each leaving the post and its video record unchanged; the author's valid update is the serializer merge of title, content and image, and of the nested video record (attributes set on the existing record, or a new record holding exactly the nested data) |
| SocialViews.Network.DeletePostApi | social_network/views/fbv.py:102-132 | 404 or 403 with nothing deleted; the author's delete removes the post and its comments (204) |
| SocialViews.Network.DeletePostRows | social_network/views/fbv.py:130 | `post.delete()` removes the post row and, by cascade, its comments |
| SocialViews.Network.EditPost | social_network/views/fbv.py:570-592 | a non-author is redirected home with the post unchanged; the author's valid POST overwrites the fields and redirects, anything else renders the form; no other post changes |
| SocialViews.Network.DeletePost | social_network/views/fbv.py:596-611 | every request for an existing post is redirected home, and only the author's POST deletes it |
| SocialViews.Network.MarkNotificationAsRead | social_network/views/fbv.py:692-709 | only the recipient's notification is marked read (200); otherwise 404 and nothing changes |
| SocialViews.Network.AddComment | social_network/views/fbv.py:263-279 | a valid POST appends the comment and redirects; anything else renders the form; the author is notified of exactly the saved comment |
| SocialViews.DropBetween | social_network/views/fbv.py:437-438 | the requests in either direction between the two users are removed and the rest are kept |
| SocialViews.DropComments | social_network/models.py:50 | the comments of the deleted post go and every other comment stays |
| SocialViews.DropCommentsCounts | social_network/models.py:50 | every other comment keeps its multiplicity and the deleted post's comments have none |
| SocialViews.DropCommentsAppend | social_network/models.py:50 | dropping distributes over concatenation, so the kept comments stay in their order |
| ChatModels.TypeValue | chat/models.py:5-11 | a room type's stored value fits the 7-character column |
| ChatModels.TypeFromValue | chat/models.py:5-11 | exactly "private" and "group" are valid choices |
| ChatModels.TypeValueRoundTrip | chat/models.py:5-11 | storing and reading back a type are inverse |
| ChatModels.GroupNameOf | chat/models.py:24-27 | the group name is "chat_" followed by the decimal id |
| ChatModels.GroupNameInjective | chat/consumers.py:14 | different rooms never share a group |
| ChatModels.GroupNameNamesRoom | chat/models.py:27 | the room id can be read back from the group name |
| ChatModels.ChatRoom.constructor | chat/models.py:10-13 | a new room has its name and type and no participants |
| ChatModels.ChatRoom.AddParticipant | chat/models.py:18-19 | participants become old participants plus u (so adding twice changes nothing); name and type unchanged |
| ChatModels.ChatRoom.RemoveParticipant | chat/models.py:21-22 | participants become old participants minus u only |
| ChatModels.NewMessage | chat/models.py:29-34 | a new message is unread and belongs to its room and user |
| ChatModels.InRoom | chat/consumers.py:122 | a room's messages are exactly the table's messages of that room |
| ChatModels.InRoomChronological | chat/models.py:36-37 | filtering one room keeps ascending timestamp order |
| ChatModels.InRoomAppend | chat/consumers.py:110-114 | a saved message ends its room's list and leaves other rooms' lists alone |
| ChatViews.UnreadIn | chat/views.py:19-26 | a room's unread count is zero iff none of its messages is from someone else and unread |
| ChatViews.UnreadTotal | chat/views.py:144-150 | the badge count is bounded by the table size and zero without rooms |
| ChatViews.UnreadSplit | chat/views.py:144-150 | the badge count is one room's count plus the count over the other rooms |
| ChatViews.BadgeIsSumOfRoomCounts | chat/views.py:19-26 | the badge count equals the sum of the per-room counts of a listing of distinct rooms |
| ChatViews.MarkRoomRead | chat/views.py:42 | marking keeps the number of messages |
| ChatViews.MarkRoomReadClearsRoom | chat/views.py:42 | after opening a room, the caller has no unread message in it |
| ChatViews.MarkRoomReadKeepsOtherRooms | chat/views.py:42 | other rooms' unread counts are unchanged |
| ChatViews.MarkRoomReadKeepsRows | chat/views.py:42 | only `is_read` can change, the caller's own messages are untouched, and nothing becomes unread |
| ChatViews.Room | chat/views.py:33-56 | 404 for a missing room; a non-participant is redirected with nothing marked; a participant's room is marked read and shown with the other participants |
| ChatViews.RoomsBelow | chat/views.py:16 | lists exactly the caller's rooms, newest first (ids are issued in creation order, so descending id is `-created_at`) |
| ChatViews.MemberRoomsListed | chat/views.py:16 | the listing covers every room the caller is in |
| ChatViews.ChatRooms | chat/views.py:13-30 | one entry per room of the caller, newest first, each with its unread count; the counts add up to the badge |
| ChatViews.UnreadMessageCount | chat/views.py:142-152 | the count over every room the user participates in |
| ChatViews.FirstSharedPrivate | chat/views.py:70-77 | the first private room holding both users, or none |
| ChatViews.ReusableRoom | chat/views.py:70-79 | a room is reused iff the first shared private room has exactly two participants, namely the two users |
| ChatViews.PrivateRoomName | chat/views.py:81 | the name is "Chat between ", the caller's username, " and ", the friend's username |
| ChatViews.CreatePrivateChat | chat/views.py:59-88 | unknown user 404; non-friend redirected to the friend list; a reusable room is reused; otherwise a new private room named after both users with participants exactly {caller, friend} |
| ChatViews.MissingNameAsWritten | chat/views.py:99-101 | as written, a missing or empty name is a server error |
| ChatViews.MissingNameNeverRedirects | chat/views.py:99-101 | as written, the missing-name branch never reaches its redirect |
| ChatViews.MissingNameIntended | chat/views.py:99-101 | a missing or empty name redirects back to the form |
| ChatViews.Eligible | chat/views.py:111-118 | a listed id joins iff it names an existing user who is the caller's friend |
| ChatViews.CountEligible | chat/views.py:110-116 | the counter never exceeds the number of listed ids |
| ChatViews.CountEligibleDistinct | chat/views.py:110-118 | with distinct ids, `participants_added` is the number of friends added |
| ChatViews.CreateGroupChat | chat/views.py:93-139 | GET shows the friends; a missing name creates nothing; otherwise a new group room with the creator plus exactly the eligible ids, and the counter |
| ChatConsumers.ReplayFrame | chat/consumers.py:38-44 | each replayed frame carries the stored id, content, username and timestamp |
| ChatConsumers.EventFor | chat/consumers.py:67-77 | the broadcast event carries the saved message's id and timestamp, the sender and the text |
| ChatConsumers.ChatMessage | chat/consumers.py:85-93 | `chat_message` forwards the event's fields with `user` set to the username |
| ChatConsumers.LiveFrameMatchesReplay | chat/consumers.py:85-93 | a message reaches the browser live and on replay as the same frame |
| ChatConsumers.Reverse | chat/consumers.py:124 | `reversed`: same length, read back to front |
| ChatConsumers.NewestFirst | chat/consumers.py:122 | newest first, at most `limit` messages |
| ChatConsumers.Window | chat/consumers.py:121-124 | at most `limit` messages, all of them when there are fewer, always the last ones of the room |
| ChatConsumers.WindowIsNewestReversed | chat/consumers.py:122-124 | the window equals the newest-first slice reversed |
| ChatConsumers.WindowIsMostRecent | chat/consumers.py:122-124 | the replay is in ascending timestamp order and no message left out is newer than one replayed |
| ChatConsumers.WindowSlides | chat/consumers.py:122 | a new message ends the window and pushes out the oldest when it is full |
| ChatConsumers.NewMessageReplayedLast | chat/consumers.py:110-124 | after a message is saved, the next replay of its room ends with it |
| ChatConsumers.StoredAll | chat/consumers.py:124-130 | each message becomes its stored dictionary, in order |
| ChatConsumers.PreviousMessages | chat/consumers.py:121-131 | `get_previous_messages` returns the stored form of the window, oldest first, at most `limit` entries |
| ChatConsumers.Connect | chat/consumers.py:12-44 | the group is "chat_" + id; closed iff not a participant; otherwise the frames are the last 50 messages in order |
| ChatConsumers.Receive | chat/consumers.py:55-82 | an unreadable frame or missing room gets the error frame with nothing saved; otherwise exactly one new unread message with a fresh id is appended and broadcast to the room's group |
| AiGpt.Classify | ai/gpt.py:72 | a stripped line is kept iff it has two or more characters, a leading digit and '.' second; it raises iff it is a lone digit |
| AiGpt.StripAll | ai/gpt.py:70-71 | each line is stripped, in order |
| AiGpt.KeptLines | ai/gpt.py:67-73 | when no line raises, there are exactly as many kept lines as lines that pass the test, and each passes it |
| AiGpt.KeptLinesExact | ai/gpt.py:67-73 | each line that passes the test is kept, at the position given by the passing lines before it, so the output is those lines in input order |
| AiGpt.KeptLinesStep | ai/gpt.py:70-73 | one more line appends it when kept, keeps the list when skipped, fails when it raises |
| AiGpt.RaiseIsFinal | ai/gpt.py:70-83 | once a line raised, no later line recovers the list |
| AiGpt.KeptLinesFailIffRaises | ai/gpt.py:69-73 | the filter fails iff some stripped line is a lone digit |
| AiGpt.FilterLines | ai/gpt.py:69-73 | the loop computes the kept lines, or fails on a lone digit |
| AiGpt.ParseDescriptions | ai/gpt.py:65-73 | splits the completion at newlines, strips and filters |
| AiGpt.Storyline | ai/gpt.py:44-83 | whatever the mode and the completion, five descriptions, each a line the filter keeps; demo mode gives the demo storyline |
| AiGpt.GeneratePhotoDescriptions | ai/gpt.py:44-83 | returns the storyline, which has five entries |
| AiGpt.DemoStory | ai/gpt.py:15-30 | a demo storyline has five scenes, each starting with a digit and '.' and not ending in whitespace |
| AiGpt.MockScenesClean | ai/gpt.py:15-30 | each mock storyline has five scenes, each starting with a digit and '.' and not ending in whitespace |
| AiGpt.MockScenesKept | ai/gpt.py:15-30 | every scene of every mock storyline passes the line test |
| AiGpt.CleanScenesKept | ai/gpt.py:69-73 | such scenes strip to themselves and are all kept |
| AiGpt.MockStorylinesPassFilter | ai/gpt.py:15-30 | each mock storyline passes the filter unchanged |
| AiGpt.KeptLinesOfCleanLines | ai/gpt.py:69-73 | lines that all pass the test are all kept, in order |
| AiGpt.CleanStorylineRoundTrip | ai/gpt.py:67-73 | a completion made of numbered lines joined by newlines parses back to exactly those lines |
| AiGpt.TwoDigitNumberDropped | ai/gpt.py:72 | "10." and other two-digit numbers are skipped |
| AiGpt.LoneDigitFallsBack | ai/gpt.py:72 | a line that strips to a single digit makes the parse fail, so the mock is used |
| AiGpt.GenerateImages | ai/gpt.py:86-115 | five descriptions give five URLs; the mock URLs in mock mode or on any failure; otherwise the generated URL of each description in order |
| AiStorage.LastIndexOf | ai/s3_utils.py:83 | the last position of a character, or -1 |
| AiStorage.FirstIndexOf | ai/s3_utils.py:102 | the first position of a character, or -1 |
| AiStorage.SplitExt | ai/s3_utils.py:83 | `os.path.splitext`: root and extension concatenate to the path; a non-empty extension starts with '.' and holds no other '.' and no '/' |
| AiStorage.SplitExtOfStemAndSuffix | ai/s3_utils.py:83 | "name.ext" splits into "name" and ".ext" |
| AiStorage.LeadingDotsAreNoExtension | ai/s3_utils.py:83 | names like ".bashrc" have no extension |
| AiStorage.StoredExtension | ai/s3_utils.py:83-85 | the original extension, else ".jpg" for the images folder and ".mp4" otherwise |
| AiStorage.StoredFileName | ai/s3_utils.py:80-88 | the decimal timestamp followed by the extension |
| AiStorage.StoredFileNameInjective | ai/s3_utils.py:80-88 | the name determines the timestamp and the extension |
| AiStorage.PathJoin | ai/s3_utils.py:109 | `os.path.join` of folder and name, the name winning when absolute |
| AiStorage.MediaUrl | ai/s3_utils.py:109-110 | the URL starts with "/media/" and holds no backslash |
| AiStorage.DataUrlParts | ai/s3_utils.py:99-102 | split at the first comma only; no comma is the error path |
| AiStorage.DataUrlRoundTrip | ai/s3_utils.py:102 | a comma-free header and any payload split back apart |
| AiStorage.WrittenBytes | ai/s3_utils.py:98-106 | bytes are written as given; text is written only as the decoded payload of a "data:" URL, and any other text is the error path |
| AiStorage.UploadToS3 | ai/s3_utils.py:74-116 | a URL iff the folder, the decode and the write succeed; the URL is the media URL of the stored name |
| AiStorage.MediaUrlOfStoredName | ai/s3_utils.py:88-110 | the URL spelled out: prefix, folder, timestamp digits, extension |
| AiStorage.UploadToS3DistinctSeconds | ai/s3_utils.py:80-110 | uploads in different seconds get different URLs |
| AiStorage.ReplaceBackslashesAppend | ai/s3_utils.py:109 | the replacement distributes over concatenation |
| AiStorage.LocalImageUrl | ai/s3_utils.py:131-141 | a "/media/" URL without backslashes |
| AiStorage.FallbackIsNotLocal | ai/s3_utils.py:141-171 | the remote fallback is never a local URL |
| AiStorage.UploadImageToS3 | ai/s3_utils.py:118-175 | non-empty; a "/media/" URL comes back unchanged; otherwise the local image URL iff the data, download or seed fallback was saved, else the fixed remote fallback |
| AiStorage.UploadImageIdempotent | ai/s3_utils.py:124-125 | applying the upload to its own result changes nothing |
| AiStorage.LocalImageUrlInjective | ai/s3_utils.py:128-141 | different seconds give different local image URLs |
| AiStorage.DigitsUnchanged | ai/s3_utils.py:109-110 | the stored name survives the backslash replacement |
| AiViews.SeedUrl | ai/views/cbv.py:68-70 | the seed URL is remote, never a "/media/" URL |
| AiViews.PlaceholderImage | ai/views/cbv.py:75 | the placeholder URL is on the placeholder host |
| AiViews.UploadAsWritten | ai/views/cbv.py:66-75 | as written, an upload returns a non-empty URL |
| AiViews.ImageUrlsAsWritten | ai/views/cbv.py:66-75 | as written, five uploads in order |
| AiViews.SameSecondUploadsShareOneFile | ai/views/cbv.py:66-75 | five distinct seed URLs within one second all land on the same local file URL |
| AiViews.SeedUrlInjective | ai/views/cbv.py:68-70 | different stamps give different seed URLs |
| AiViews.UploadIntended | ai/views/cbv.py:66-71 | an upload always answers with a non-empty URL, and a local save is named after its own seed stamp |
| AiViews.NotPlaceholder | ai/views/cbv.py:72-75 | local and fallback URLs differ from every placeholder |
| AiViews.ImageUrls | ai/views/cbv.py:66-75 | five entries, each the upload of its position: the placeholder fallback is never taken |
| AiViews.StoredImagesAreNotPlaceholders | ai/views/cbv.py:72-75 | no stored entry equals its position's placeholder URL |
| AiViews.IntendedUploadsAreDistinct | ai/views/cbv.py:66-75 | two locally saved images never share a URL |
| AiViews.StoreImages | ai/views/cbv.py:66-75 | the loop, placeholder branch included, yields exactly the five intended uploads |
| AiViews.Normalized | ai/views/cbv.py:84-88 | exactly five entries: the first five given, padded with the placeholder of each missing position |
| AiViews.NormalizedKeepsFive | ai/views/cbv.py:84-88 | five URLs are kept as they are, and normalising twice is normalising once |
| AiViews.PadOrTruncate | ai/views/cbv.py:84-88 | the padding loop or slice computes the normalised list |
| AiViews.VideoUrl | ai/views/cbv.py:100 | a "/media/videos/placeholder_" URL |
| AiViews.VideoUrls | ai/views/cbv.py:91-100 | exactly one URL per created video |
| AiViews.VideoUrlsExact | ai/views/cbv.py:91-100 | each created video's URL sits at the index given by the videos created before it, so the list is in position order |
| AiViews.VideoUrlsEmptyIff | ai/views/cbv.py:91-104 | no video iff no placeholder was created |
| AiViews.FirstVideoIsFirstMade | ai/views/cbv.py:100-109 | the first URL belongs to the first created video |
| AiViews.CreateVideos | ai/views/cbv.py:91-100 | fails iff the videos folder cannot be made; otherwise one URL per created video, in order |
| AiViews.FinalVideo | ai/views/cbv.py:109 | the first video URL, or "" without videos |
| AiViews.VideoPromptTable.Create | ai/views/cbv.py:112-118 | a new row with a fresh id, the given lists and the "comedy" default category is appended |
| AiViews.GenerateVideo | ai/views/cbv.py:42-126 | no prompt 400; a folder failure 500; no video 500, each storing nothing; otherwise a record of prompt, storyline, five images, the videos and the first video as final is stored and returned |

## Left out

- Django's ORM, authentication, sessions, caching, throttling and templates are left out. Tables are maps and sequences; templates are named by their path.
- Full-text search (`search_posts`, `update_search_vector`) is left out, because ranking is done by the database.
- Celery's queue and workers (`pixeltales/celery.py`) are left out. A notification record the signals enqueue is appended to `Network.outbox`. The insert `create_notification` performs is `SocialSignals.InsertAsWritten`, and the intended row is `SocialSignals.NewNotification` (see Findings).
- SocialSignals.InsertAsWritten: Python's `int` also accepts surrounding whitespace, a sign and underscores; the model accepts only plain decimal digits. The records the signals enqueue hold either nothing or "post", so this does not change any result.
- Not modelled: `ai/nvidia.py`, `analytics/views.py`, the theme switcher, URL configurations, the admin, migrations and `ai/serializers.py`. The video view imports `ai/nvidia.py` but never calls it.
- The handlers not named above are left out: `post_list`, `comment_list`, `register_user`, the profile views, `list_friends`, `search_friends`, `search_users`, `get_notifications`, `home` and the login and logout views. They are listing, rendering and ORM calls.
- The WebSocket channel layer, `accept`/`close` and concurrency between consumers are left out. The consumer is modelled as one sequential step per event.
- User names are a function from ids to strings. Timestamps are numbers, and the `isoformat` rendering is left out.
- Text.IsDigit: only ASCII digits count, while Python's `isdigit` also accepts other Unicode digits.
- The participant ids of `create_group_chat` are user ids. A non-numeric id, which would make `User.objects.get` raise a ValueError the view does not catch, is not modelled.
- A profile is identified by its user's id. The profile primary key that `send_friend_request` and `remove_friend` receive is assumed to equal the user id.
- SocialViews.Network.SendFriendRequest: the 500 reply for an unexpected exception is not modelled, because the model raises none.
- `Post.video_url` is not a field of `Post`, so `PostSerializer` would fail at run time. The merge logic is modelled as if the field existed.
- ChatConsumers.Receive requires that no stored timestamp is later than `now`. The table's timestamp order then holds by construction. Ties between equal timestamps keep insertion order.
- The write to the mock-mode environment variable in the video view is left out. The flag is read once, when ai/gpt.py is imported, so the write has no effect.
- `upload_video_to_s3`, `create_placeholder_image` and the body of `create_placeholder_video` are not modelled. Whether a placeholder video is created is the oracle `World.videoMade`.
- Base64 decoding (RFC 4648 section 4) is the oracle `decode`. File contents, overwriting an existing file, and directory creation are outcomes in `StoreIo` and `ImageIo`; only the returned URLs are modelled.
- A non-string JSON value under "prompt" is not modelled: the prompt is a string or absent.
- ChatConsumers.Receive: a JSON list under "message" is not modelled. The source slices it, saves its `str` rendering and broadcasts the list itself, so its live frame then differs from its replay. The model treats it as it treats the other non-text values, which raise: the error frame and nothing saved.
- A failing database insert in `GenerateVideo.post` is not modelled. Its 500 reply would carry the exception text.
- AiGpt.FilterLines takes lines that are already stripped. `ParseDescriptions` strips every line before the loop instead of inside it, which gives the same result because stripping has no effect on other lines.
- AiViews.GenerateVideo: the NoDescriptions, NoImages and NoUploads exits are kept in its body but are never taken, because the lists always have five entries. Its contract therefore says nothing about them.

## Findings

| source | as written | input that shows it | evidently intended | confidence | as-written member | corrected member |
|---|---|---|---|---|---|---|
| social_network/views/fbv.py:263-279 | `add_comment` returns right after saving a valid comment, so `comment_added` is sent only on the requests that save nothing | a GET of the comment page: the post's author is notified of a comment that does not exist | send the signal for the comment just saved, before the redirect | not executed | SocialViews.CommentStepAsWritten, SocialViews.OpeningCommentPageNotifies | SocialViews.CommentStepIntended (used by SocialViews.Network.AddComment) |
| chat/views.py:99-101 | the missing-name branch calls `messages.error`, but `messages` is never imported in chat/views.py, so the branch raises NameError | a POST to `create_group_chat` without a name: a server error instead of the redirect | show the error and redirect back to the form | not executed | ChatViews.MissingNameAsWritten, ChatViews.MissingNameNeverRedirects | ChatViews.MissingNameIntended (used by ChatViews.CreateGroupChat) |
| ai/views/cbv.py:66-75 | the view derives five different seed URLs, but `upload_image_to_s3` names each file `image_<current second>.jpg`, so uploads within one second overwrite one another and all five entries name one file | five uploads completing within the same second | a distinct stored image per position, named after that position's own stamp | not executed | AiViews.ImageUrlsAsWritten, AiViews.SameSecondUploadsShareOneFile | AiViews.ImageUrls, AiViews.IntendedUploadsAreDistinct (used by AiViews.StoreImages) |
| social_network/tasks.py:13-19 | `create_notification` stores the `target_content_type` argument in the integer foreign-key column `target_content_type_id`, and the like and comment receivers pass the model name "post" there | any like or comment: the insert raises ValueError and the author gets no notification | pass the Post content type's id | not executed | SocialSignals.InsertAsWritten, SocialSignals.PostEventsNeverStored | SocialSignals.NewNotification, SocialSignals.PostEventTargetsPost |

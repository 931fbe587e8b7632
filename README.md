# WhatsAppClone core, modelled in Dafny

This project models the logic at the core of the WhatsAppClone iOS app. The app's
screens and its Firebase, AVFoundation and UIKit plumbing are left out.
What is modelled:

- **Message paging** (`MessageService.getHistoricalMessages`). A page arrives as a
  snapshot of the channel's message node. The model takes that snapshot as a
  sequence of (key, fields) children in key order, and then models:
  - building the messages;
  - sorting them by time stamp;
  - dropping the newest message on the first page;
  - filtering out the cursor entry on later pages;
  - choosing the next cursor.

  The two database queries are modelled as functions on an ascending log of
  children, so the model can state what repeated paging delivers
  (`message_service.dfy`, `message_history.dfy`).
- **Reactions.** `increaseCountViaTransaction` and `addReaction` act on a
  message node that holds `reactions` (emoji to count) and `userReactions`
  (user to emoji) (`message_reactions.dfy`). The reaction badge under a message
  lists the emojis and sums their counts (`message_reaction_view.dfy`).
- **Sending.** The records `sendTextMessage` writes, and the computed
  properties of `MessageUploadParams`.
- **View models**, as classes whose methods update their fields:
  - `ChatRoomViewModel`: send guard, input reset, member fetch filter, member append;
  - `VoiceMessagePlayer`: the playback state machine;
  - `AuthScreenModel`: button predicates, loading and error state;
  - `ChannelTabViewModel`: navigation flags;
  - the reaction picker's `emojiStates`.
- **Pure mappings**:
  - `MessageType` titles and parsing, `AdminMessageType` raw values;
  - the `UserItem` dictionary parser;
  - `ChannelItem.isGroupChat` and its placeholder;
  - `MediaAttachmentType` equality and accessors;
  - avatar sizes and fallback icons;
  - the auth text field kinds;
  - chat title truncation;
  - `isEmptyOrWhitespace`.

Each Swift file of the core has its own Dafny module. `Wrappers` holds Swift's
optionals. `DictionaryValues` holds the `Any` values a database snapshot
yields. `Numbers` holds `Min` and `Max`.

Facts about paging that the lemmas establish, all following from the code:

- **While the cursor's entry is still in the node, a later page returns at
  most `pageSize - 1` messages.** The range query includes the cursor entry,
  and the filter then drops it (`MessageHistory.CursorPage`). If that entry
  has been removed, the range query can return `pageSize` entries and the
  filter drops none of them; the model does not cover that case.
- **The first page returns `pageSize - 1` of the newest `pageSize` entries.**
  It drops a message with the latest time stamp among them
  (`MessageHistory.FirstPage`). `listenForNewMessages` delivers the entry with
  the largest key, so it delivers the dropped message only when key order and
  time-stamp order agree on the newest entry.
- **Pages neither overlap nor leave gaps.** Paging back from the first page's
  cursor to the oldest entry delivers every message exactly once, except that
  one dropped message (`MessageHistory.WholeHistory`).
- **With `pageSize == 1`, paging never advances**
  (`MessageHistory.PageSizeOneNeverAdvances`).
- **Paging never stops by itself.** Once the cursor is the oldest key, every
  further request returns an empty page with the same cursor. The code keeps
  no "can paginate" flag (`MessageHistory.OldestCursorRepeats`).
- **A reaction count only goes up.** Switching emoji never lowers the old
  emoji's count (`MessageReactions.SwitchingNeverDecrements`). Counts
  therefore only bound, from above, the number of users holding each emoji
  (`MessageReactions.AddReactionKeepsCountsCoverHolders`).
- **A failed send does not clear the input.** When no message key can be
  generated, `sendTextMessage` returns without calling `onComplete`, so the
  chat room's input is not cleared (`ChatRoom.ChatRoomViewModel.SendMessage`).

## Model

| member | source | states |
|---|---|---|
| Wrappers.Option.GetOr | WhatsAppClone/Screens/Auth/Model/UserItem.swift:31-33 | `x ?? d` is the wrapped value when present, `d` otherwise |
| DictionaryValues.StringAt | WhatsAppClone/Screens/Auth/Model/UserItem.swift:31-35 | `dict[key] as? String` is present exactly when the key holds a string, and is that string |
| MessageTypes.AdminRawValue | WhatsAppClone/Screens/Chat/Models/MessageItem+Types.swift:10-15 | every admin kind's raw value is one of the four case names |
| MessageTypes.AdminFromRawValue | WhatsAppClone/Screens/Chat/Models/MessageItem+Types.swift:10-15 | a raw value parses exactly when it is one of the four case names, and only to the admin kind whose raw value it is |
| MessageTypes.AdminRawValueRoundTrip | WhatsAppClone/Screens/Chat/Models/MessageItem+Types.swift:10-15 | every admin kind is recovered from its raw value (raw values are the case names, pairwise distinct) |
| MessageTypes.Title | WhatsAppClone/Screens/Chat/Models/MessageItem+Types.swift:20-31 | every kind's title is one of "text", "photo", "video", "audio" |
| MessageTypes.Parse | WhatsAppClone/Screens/Chat/Models/MessageItem+Types.swift:33-46 | a string parses to a kind with that title exactly when it is one of the four known titles; any other string parses to `.text` |
| MessageTypes.ParseTitle | WhatsAppClone/Screens/Chat/Models/MessageItem+Types.swift:20-46 | parsing a kind's title gives the kind back |
| MessageTypes.TitleInjective | WhatsAppClone/Screens/Chat/Models/MessageItem+Types.swift:20-31 | every title is a known string and no two kinds share a title |
| UserModel.UserItem.Id | WhatsAppClone/Screens/Auth/Model/UserItem.swift:17-19 | a user's `id` is its `uid` |
| UserModel.UserItem.BioUnwrapped | WhatsAppClone/Screens/Auth/Model/UserItem.swift:21-23 | the user's bio when set, else "Hey there! I am using WhatsUp." |
| UserModel.FromDictionary | WhatsAppClone/Screens/Auth/Model/UserItem.swift:30-36 | each field is the string stored under its key; missing or non-string names become "", missing or non-string bio and image URL become nil |
| UserModel.FromToDictionary | WhatsAppClone/Screens/Auth/Model/UserItem.swift:30-45 | parsing the dictionary that a reference encoder writes under the declared keys gives the user back: strings are copied verbatim |
| UserModel.FromDictionaryIgnoresOtherKeys | WhatsAppClone/Screens/Auth/Model/UserItem.swift:30-36 | entries under any other key do not affect the parsed user |
| UserModel.KeysDistinct | WhatsAppClone/Screens/Auth/Model/UserItem.swift:39-45 | the five keys are pairwise distinct |
| UserModel.EmptyDictionaryUser | WhatsAppClone/Screens/Auth/Model/UserItem.swift:21-36 | an empty dictionary gives empty names, no optionals, and the stock bio |
| ChannelModel.ChannelItem.IsGroupChat | WhatsAppClone/Screens/Channel/Models/ChannelItem.swift:22-24 | a channel is a group chat iff at least three member profiles are loaded |
| ChannelModel.IsGroupChatIgnoresCounts | WhatsAppClone/Screens/Channel/Models/ChannelItem.swift:16-24 | changing `membersCount` or `membersUids` never changes `isGroupChat` |
| ChannelModel.Placeholder | WhatsAppClone/Screens/Channel/Models/ChannelItem.swift:26-35 | the placeholder has id "1", `membersCount` 2, no admins, uids or members, and is not a group chat |
| MediaAttachments.SameKindIffSameCase | WhatsAppClone/Screens/Chat/Models/MediaPickerItem_Types.swift:69-76 | `==` holds iff both sides are photos, both videos or both audio, whatever their payloads |
| MediaAttachments.SameKindEquivalence | WhatsAppClone/Screens/Chat/Models/MediaPickerItem_Types.swift:69-76 | `==` is reflexive, symmetric and transitive |
| MediaAttachments.MediaAttachment.Thumbnail | WhatsAppClone/Screens/Chat/Models/MediaPickerItem_Types.swift:32-41 | the stored thumbnail for photo and video, an empty image for audio |
| MediaAttachments.MediaAttachment.FileURL | WhatsAppClone/Screens/Chat/Models/MediaPickerItem_Types.swift:43-52 | nil exactly for a photo; otherwise the video's or the recording's URL |
| MediaAttachments.MediaAttachment.AudioDuration | WhatsAppClone/Screens/Chat/Models/MediaPickerItem_Types.swift:54-61 | present exactly for audio, and equal to its stored duration |
| ProfileImage.Size.Dimension | WhatsAppClone/Components/CircularProfileImageView.swift:58-75 | `custom(d)` has dimension `d`; presets are among 30, 40, 50, 60, 80, 120 |
| ProfileImage.PresetsStrictlyIncreasing | WhatsAppClone/Components/CircularProfileImageView.swift:58-71 | preset dimensions strictly increase from `mini` to `xLarge` |
| ProfileImage.FallbackFor | WhatsAppClone/Components/CircularProfileImageView.swift:82-89 | the direct-chat icon exactly for a member count of 2, the group icon for every other count |
| ProfileImage.FallbackImage.RawValue | WhatsAppClone/Components/CircularProfileImageView.swift:78-80 | the direct-chat icon is exactly "person.circle.fill", the group icon exactly "person.2.circle.fill" |
| ProfileImage.FallbackRawValuesDistinct | WhatsAppClone/Components/CircularProfileImageView.swift:78-80 | the icons are "person.circle.fill" and "person.2.circle.fill", which differ |
| ProfileImage.ForUser | WhatsAppClone/Components/CircularProfileImageView.swift:17-21 | the URL/size initialiser keeps its arguments and always falls back to the direct-chat icon |
| ProfileImage.ForChannel | WhatsAppClone/Components/CircularProfileImageView.swift:94-98 | the channel initialiser falls back to the direct-chat icon exactly when `membersCount` is 2 |
| ProfileImage.Body | WhatsAppClone/Components/CircularProfileImageView.swift:23-45 | the remote picture when a URL is set, the fallback symbol otherwise |
| AuthTextField.InputType.Placeholder | WhatsAppClone/Screens/Auth/Views/AuthTextField.swift:47-56 | "Email", "Password", or the custom placeholder |
| AuthTextField.InputType.ImageName | WhatsAppClone/Screens/Auth/Views/AuthTextField.swift:58-67 | "envelope", "lock", or the custom icon |
| AuthTextField.InputType.Keyboard | WhatsAppClone/Screens/Auth/Views/AuthTextField.swift:69-76 | the e-mail keyboard exactly for `.email` |
| AuthTextField.InputType.UsesSecureField | WhatsAppClone/Screens/Auth/Views/AuthTextField.swift:22-28 | the secure field is used exactly for `.password` |
| AuthTextField.Body | WhatsAppClone/Screens/Auth/Views/AuthTextField.swift:22-28 | a secure field exactly for `.password`; the hint is the placeholder; a plain field gets the type's keyboard |
| AuthTextField.EmailFieldIsUnique | WhatsAppClone/Screens/Auth/Views/AuthTextField.swift:22-76 | only `.email` renders as a plain "Email" field with the e-mail keyboard; the secure field's type has the default keyboard |
| StringExtensions.TrimStart | WhatsAppClone/Extensions/String+Extensions.swift:11 | the result is a suffix whose dropped prefix is all whitespace and which starts with a visible character, if any |
| StringExtensions.TrimEnd | WhatsAppClone/Extensions/String+Extensions.swift:11 | the result is a prefix whose dropped suffix is all whitespace and which ends with a visible character, if any |
| StringExtensions.Trim | WhatsAppClone/Extensions/String+Extensions.swift:11 | trimming never lengthens; what is left starts and ends with a visible character; nothing is left iff every character is whitespace or a newline |
| StringExtensions.IsEmptyOrWhitespace | WhatsAppClone/Extensions/String+Extensions.swift:11 | a string is empty-or-whitespace iff every character is whitespace or a newline |
| StringExtensions.EmptyIsEmptyOrWhitespace | WhatsAppClone/Extensions/String+Extensions.swift:11 | "" is empty-or-whitespace |
| StringExtensions.VisibleCharacter | WhatsAppClone/Extensions/String+Extensions.swift:11 | one visible character anywhere makes a string not empty-or-whitespace |
| StringExtensions.PaddingIrrelevant | WhatsAppClone/Extensions/String+Extensions.swift:11 | leading or trailing whitespace does not change the answer |
| ChatTitle.ChannelTitle | WhatsAppClone/Screens/Chat/Views/ChatRoomScreen.swift:45-50 | titles of at most 20 characters are unchanged; longer ones become their first 20 characters and "..."; the result starts with the first min(20, n) characters and has at most 23 |
| ChatTitle.ChannelTitleIdempotent | WhatsAppClone/Screens/Chat/Views/ChatRoomScreen.swift:45-50 | truncating a truncated title changes nothing |
| MessageService.FirstMember | WhatsAppClone/Service/MessageService.swift:119 | the first member whose id is the uid, or nil when no member has it |
| MessageService.MakeMessage | WhatsAppClone/Service/MessageService.swift:116-122 | the message id is the child's key, the group flag is the channel's, and the sender is the first channel member with the owner's uid, nil when there is none |
| MessageService.MakeMessages | WhatsAppClone/Service/MessageService.swift:116-122 | one message per child, in order (the closure never yields nil) |
| MessageService.InsertByTime | WhatsAppClone/Service/MessageService.swift:124 | inserting adds exactly the one message |
| MessageService.InsertKeepsOrder | WhatsAppClone/Service/MessageService.swift:124 | inserting into a list sorted by time stamp keeps it sorted |
| MessageService.SortByTime | WhatsAppClone/Service/MessageService.swift:124 | the result is ascending by time stamp and a permutation of the input |
| MessageService.WithoutId | WhatsAppClone/Service/MessageService.swift:130 | no message with the cursor id survives, and every other message keeps its multiplicity |
| MessageService.WithoutIdKeepsOrder | WhatsAppClone/Service/MessageService.swift:130 | filtering a sorted list keeps it sorted |
| MessageService.DropNewest | WhatsAppClone/Service/MessageService.swift:127-129 | `removeLast` on a sorted list removes one message at least as new as every message kept |
| MessageService.Page | WhatsAppClone/Service/MessageService.swift:110-133 | the next cursor is the first child's key; a first page has one message fewer than the snapshot, a later page at most as many |
| MessageService.PageSorted | WhatsAppClone/Service/MessageService.swift:124-131 | every page is in ascending time-stamp order |
| MessageService.FirstPageDropsNewest | WhatsAppClone/Service/MessageService.swift:124-129 | a first page holds every fetched message but one, and the one left out is a fetched message whose time stamp no fetched message exceeds |
| MessageService.LaterPageFilters | WhatsAppClone/Service/MessageService.swift:130 | a later page holds each fetched message whose id is not the cursor, as often as it was fetched, and none with the cursor id |
| MessageService.GetHistoricalMessages | WhatsAppClone/Service/MessageService.swift:110-138 | a cancelled query completes with the empty node (no messages, no cursor); an empty snapshot never completes; otherwise the completion gets the page |
| MessageService.CursorExcluded | WhatsAppClone/Service/MessageService.swift:126-131 | on a later page no message has the cursor's id, and every fetched child with another key is kept |
| MessageService.SendTextMessage | WhatsAppClone/Service/MessageService.swift:16-36 | nothing is written without a generated key; otherwise the channel preview (last message, its time stamp, and the type stored as "text") and a text message owned by the sender, with the same text and time stamp, are written under that key |
| MessageService.MessageUploadParams.OwnerUID | WhatsAppClone/Service/MessageService.swift:228-230 | the owner is the sender's uid |
| MessageService.MessageUploadParams.ThumbnailWidth | WhatsAppClone/Service/MessageService.swift:232-235 | present exactly for photo and video, and equal to the thumbnail's width |
| MessageService.MessageUploadParams.ThumbnailHeight | WhatsAppClone/Service/MessageService.swift:237-240 | present exactly for photo and video, and equal to the thumbnail's height |
| MessageHistory.EndingAt | WhatsAppClone/Service/MessageService.swift:104-106 | the range query yields only children of the node with keys at most the cursor |
| MessageHistory.EndingAtContents | WhatsAppClone/Service/MessageService.swift:104-106 | the range query yields every child whose key is at most the cursor, as often as the node holds it, and no other |
| MessageHistory.EndingAtIsPrefix | WhatsAppClone/Service/MessageService.swift:104-106 | in a node ordered by key the range query yields a prefix of the node, so its children keep key order |
| MessageHistory.Query | WhatsAppClone/Service/MessageService.swift:98-107 | the snapshot has at most `pageSize` children; without a cursor it has `min(pageSize, n)`; with one, only children of the node with keys at most the cursor |
| MessageHistory.LimitedToLast | WhatsAppClone/Service/MessageService.swift:102 | the last `min(pageSize, n)` children |
| MessageHistory.EndingAtPrefix | WhatsAppClone/Service/MessageService.swift:104-106 | in a node ordered by key, the children up to a present key are the prefix ending at that key |
| MessageHistory.CursorSnapshot | WhatsAppClone/Service/MessageService.swift:104-107 | a cursor query returns the cursor entry and up to `pageSize - 1` entries before it, none with the cursor key |
| MessageHistory.CursorIsSmallestKey | WhatsAppClone/Service/MessageService.swift:112-131 | the next cursor is the page's smallest key, and every message of the page has a key at least as large |
| MessageHistory.CursorPage | WhatsAppClone/Service/MessageService.swift:104-131 | a later page holds exactly the messages of the `pageSize - 1` entries before the cursor, and its cursor is the oldest entry fetched |
| MessageHistory.PageDropsOnlyCursor | WhatsAppClone/Service/MessageService.swift:126-131 | a page whose only cursor-key entry is the last one holds the messages of the entries before it, with the first entry as cursor |
| MessageHistory.CursorEntryDropped | WhatsAppClone/Service/MessageService.swift:130 | the cursor entry is the only one the filter removes |
| MessageHistory.FirstPage | WhatsAppClone/Service/MessageService.swift:98-131 | the first page fetches the last `pageSize` entries, returns one fewer message, its cursor is the oldest entry fetched, and the message left out is a newest fetched one |
| MessageHistory.PageSizeOneNeverAdvances | WhatsAppClone/Service/MessageService.swift:93-131 | with `pageSize` 1 a later page is empty and keeps the same cursor |
| MessageHistory.OldestCursorRepeats | WhatsAppClone/Service/MessageService.swift:93-131 | at the oldest key every further page is empty with the same cursor |
| MessageHistory.BackfillStep | WhatsAppClone/Service/MessageService.swift:93-133 | one step of paging back adds exactly the messages between the new cursor and the old one |
| MessageHistory.BackfillComplete | WhatsAppClone/Service/MessageService.swift:93-133 | paging back from a cursor to the oldest entry delivers each older message exactly once |
| MessageHistory.WholeHistory | WhatsAppClone/Service/MessageService.swift:93-133 | the first page plus paging back delivers every message of the channel exactly once, except one message that is newest by time stamp among the first page's entries |
| MessageReactions.CountOf | WhatsAppClone/Service/MessageService.swift:197-203 | a stored integer is its count; anything else counts 0 |
| MessageReactions.IncreaseCount | WhatsAppClone/Service/MessageService.swift:195-206 | the transaction writes n+1 over a stored integer n and 1 over anything else; the reported count equals the value written |
| MessageReactions.AddReaction | WhatsAppClone/Service/MessageService.swift:170-193 | only `reactions/<emoji>` is rewritten, to the reported count (one more than before); `userReactions[uid]` is set to the emoji, overwriting any earlier choice |
| MessageReactions.AddReactionCounts | WhatsAppClone/Service/MessageService.swift:176-191 | the chosen emoji's count goes up by exactly one and every other count is unchanged |
| MessageReactions.Holders | WhatsAppClone/Service/MessageService.swift:184-189 | the users whose recorded reaction is the emoji |
| MessageReactions.AddReactionKeepsCountsCoverHolders | WhatsAppClone/Service/MessageService.swift:170-206 | the invariant "every count is at least the number of users holding that emoji" is preserved |
| MessageReactions.EmptyNodeCoversHolders | WhatsAppClone/Service/MessageService.swift:170-206 | a message without reactions satisfies that invariant |
| MessageReactions.SwitchingNeverDecrements | WhatsAppClone/Service/MessageService.swift:176-191 | 👍 then ❤️ by one user leaves both counts at 1 while nobody holds 👍 |
| MessageReactions.TwoUsersSameEmoji | WhatsAppClone/Service/MessageService.swift:176-191 | two users reacting with 👍 give a count of 2 with both recorded |
| MessageReactionBadge.Emojis | WhatsAppClone/Screens/Chat/Views/MessageReactionView.swift:13-15 | exactly the keys of `reactions`, each once |
| MessageReactionBadge.EmojiCount | WhatsAppClone/Screens/Chat/Views/MessageReactionView.swift:17-20 | the sum of all counts, independent of iteration order |
| MessageReactionBadge.Body | WhatsAppClone/Screens/Chat/Views/MessageReactionView.swift:22-34 | nothing unless the message has reactions; every emoji once; the total shown exactly when it exceeds 1 |
| MessageReactionBadge.SingleReactionShowsNoTotal | WhatsAppClone/Screens/Chat/Views/MessageReactionView.swift:30-33 | a single reaction of count 1 sums to 1, so no total is shown |
| ReactionPicker.Initial | WhatsAppClone/Screens/Chat/Views/ReactionPickerView.swift:10-14 | a new button state is not animating and fully opaque |
| ReactionPicker.AnimationIndex | WhatsAppClone/Screens/Chat/Views/ReactionPickerView.swift:78-85 | the index itself for a received message, `count - 1 - index` for a sent one, in range for an index in range |
| ReactionPicker.AnimationIndexInvolution | WhatsAppClone/Screens/Chat/Views/ReactionPickerView.swift:78-85 | mirroring twice gives back the index |
| ReactionPicker.TapHandlerCall | WhatsAppClone/Screens/Chat/Views/ReactionPickerView.swift:58-60 | `.more` never reaches the handler; every other reaction is passed as is |
| ReactionPicker.ReactionPickerView.constructor | WhatsAppClone/Screens/Chat/Views/ReactionPickerView.swift:21-29 | seven buttons, `.more` last, none animating, all opaque |
| ReactionPicker.ReactionPickerView.OnButtonAppear | WhatsAppClone/Screens/Chat/Views/ReactionPickerView.swift:65-72 | only the entry at the animation index starts animating; all others are unchanged |
| ReactionPicker.ReactionPickerView.Tap | WhatsAppClone/Screens/Chat/Views/ReactionPickerView.swift:57-60 | tapping a button passes its reaction unless it is `.more` |
| ReactionPicker.AllButtonsAppear | WhatsAppClone/Screens/Chat/Views/ReactionPickerView.swift:33-72 | once all seven buttons have appeared, all seven are animating, on either side |
| ChatRoom.MemberUids | WhatsAppClone/Screens/Chat/ViewModels/ChatRoomViewModel.swift:67-68 | the uids of the loaded members, in order |
| ChatRoom.UidsToFetch | WhatsAppClone/Screens/Chat/ViewModels/ChatRoomViewModel.swift:70-72 | a uid is fetched iff it is a member uid, not yet loaded and not the current user's; each kept uid appears as often as in `membersUids`, whose order is kept |
| ChatRoom.ChatRoomViewModel.constructor | WhatsAppClone/Screens/Chat/ViewModels/ChatRoomViewModel.swift:13-23 | empty input and message list, no user yet |
| ChatRoom.ChatRoomViewModel.SetCurrentUser | WhatsAppClone/Screens/Chat/ViewModels/ChatRoomViewModel.swift:35-36 | logging in stores the current user and changes no other field; the fetches it then starts are the separate steps below |
| ChatRoom.ChatRoomViewModel.SendMessage | WhatsAppClone/Screens/Chat/ViewModels/ChatRoomViewModel.swift:50-55 | without a user nothing is sent and nothing changes; otherwise the input is sent and cleared exactly when the send completes |
| ChatRoom.ChatRoomViewModel.ReceiveMessages | WhatsAppClone/Screens/Chat/ViewModels/ChatRoomViewModel.swift:57-61 | the message list is replaced wholesale |
| ChatRoom.ChatRoomViewModel.GetAllChannelMembers | WhatsAppClone/Screens/Chat/ViewModels/ChatRoomViewModel.swift:64-79 | without a user nothing is fetched or changed; otherwise the uids to fetch are requested and the fetched users are appended to the members |
| VoicePlayer.PlaybackState.Icon | WhatsAppClone/Screens/Chat/ViewModels/VoiceMessagePlayer.swift:105-107 | "pause.fill" iff playing, "play.fill" otherwise |
| VoicePlayer.VoiceMessagePlayer.constructor | WhatsAppClone/Screens/Chat/ViewModels/VoiceMessagePlayer.swift:13-19 | no player, item or URL; stopped at time zero |
| VoicePlayer.VoiceMessagePlayer.PlayAudio | WhatsAppClone/Screens/Chat/ViewModels/VoiceMessagePlayer.swift:25-41 | a new URL starts a fresh player on it, playing from zero; the loaded URL resumes when paused or stopped and is left alone when playing |
| VoicePlayer.VoiceMessagePlayer.PauseAudio | WhatsAppClone/Screens/Chat/ViewModels/VoiceMessagePlayer.swift:43-46 | paused from any state; the player stops running; nothing else changes |
| VoicePlayer.VoiceMessagePlayer.Seek | WhatsAppClone/Screens/Chat/ViewModels/VoiceMessagePlayer.swift:48-52 | no-op without a player; otherwise only the position moves |
| VoicePlayer.VoiceMessagePlayer.ResumePlaying | WhatsAppClone/Screens/Chat/ViewModels/VoiceMessagePlayer.swift:56-61 | paused or stopped becomes playing; playing changes nothing |
| VoicePlayer.VoiceMessagePlayer.OnTimeObserved | WhatsAppClone/Screens/Chat/ViewModels/VoiceMessagePlayer.swift:62-67 | with an observer registered, `currentTime` follows the player |
| VoicePlayer.VoiceMessagePlayer.StopAudioPlayer | WhatsAppClone/Screens/Chat/ViewModels/VoiceMessagePlayer.swift:78-83 | stopped, time zero, player paused and rewound; the URL stays loaded |
| VoicePlayer.VoiceMessagePlayer.TearDown | WhatsAppClone/Screens/Chat/ViewModels/VoiceMessagePlayer.swift:85-97 | the observer, player, item and URL are cleared |
| AuthScreen.AuthScreenModel.constructor | WhatsAppClone/Screens/Auth/ViewModels/AuthScreenModel.swift:13-17 | not loading, empty fields, error hidden with "Uh Oh" |
| AuthScreen.AuthScreenModel.DisableLoginButton | WhatsAppClone/Screens/Auth/ViewModels/AuthScreenModel.swift:21-23 | login is enabled iff email and password are non-empty and nothing is loading |
| AuthScreen.AuthScreenModel.DisableSignupButton | WhatsAppClone/Screens/Auth/ViewModels/AuthScreenModel.swift:25-27 | sign-up is disabled iff login is disabled or the user name is empty |
| AuthScreen.AuthScreenModel.HandleSignUp | WhatsAppClone/Screens/Auth/ViewModels/AuthScreenModel.swift:29-40 | success leaves loading on; failure shows "Failed to create an account " + the error and stops loading |
| AuthScreen.AuthScreenModel.HandleLogin | WhatsAppClone/Screens/Auth/ViewModels/AuthScreenModel.swift:42-51 | success leaves loading on; failure shows "Failed to login " + the error and stops loading |
| AuthScreen.FailureMessagesDistinct | WhatsAppClone/Screens/Auth/ViewModels/AuthScreenModel.swift:29-51 | a login failure message starts with its prefix and never equals a sign-up failure message |
| ChannelTab.ChannelTabViewModel.constructor | WhatsAppClone/Screens/Channel/ViewModel/ChannelTabViewModel.swift:11-14 | no navigation, picker hidden, no new channel |
| ChannelTab.ChannelTabViewModel.OnNewChannelCreation | WhatsAppClone/Screens/Channel/ViewModel/ChannelTabViewModel.swift:16-20 | the picker is hidden, the new channel is set and navigation to it is requested |
| ChannelTab.OnNewChannelCreationIdempotent | WhatsAppClone/Screens/Channel/ViewModel/ChannelTabViewModel.swift:16-20 | a second call with the same channel leaves the state of one call |

## Left out

- Firebase I/O is not modelled: `observe`, `observeSingleEvent`, `setValue`, `updateChildValues`. A query's result is an input (a sequence of children, or the cancel outcome).
- `runTransactionBlock`'s server retries and concurrent writers are not modelled. One run of the block is modelled; the completion inside the block may fire once per attempt, and that is not captured.
- `getMessages`, `getFirstMessage` and `listenForNewMessages` are not modelled. They are network listeners; `getMessages`' repeated partial completions are left out with them. Only their effect on the chat room (the list replaced wholesale) is modelled.
- `sendMediaMessage` is not modelled beyond the `MessageUploadParams` properties it reads. Its optional dictionary entries are Firebase plumbing.
- The clock (`Date()`) and `childByAutoId().key` are inputs (`now`, `autoId`).
- `MessageItem`'s dictionary initialiser, `hasReactions`, `ChannelItem.title`, `coverImageUrl` and `allMembersFetched` are not part of this model. Parsed message fields, `hasReactions` and the cover URL are inputs; `UserService.getUsers` and `AuthManager` are not part of this model either, and their results are inputs.
- `Reaction`'s emoji strings are not part of this model. The counter works on the emoji string it is given.
- MessageService.GetHistoricalMessages: the in-place `sort`, `removeLast` and `filter` are modelled on sequence values. Swift's `sort` is not stable; the model sorts stably but promises only sorted order and the same messages.
- MessageReactions.IncreaseCount: does not model Swift's trap on `Int` overflow at `Int.max`; counts are unbounded integers.
- MessageReactionBadge.EmojiCount: does not model `Int` overflow of the sum.
- MessageReactionBadge.Emojis: the dictionary's iteration order is unspecified in Swift, so the model picks keys in an arbitrary order and states only which keys appear and that each appears once.
- StringExtensions.Trim: the contract says what is left and when nothing is left, but not that the result is the contiguous middle of `s`. That follows from the contracts of `TrimStart` and `TrimEnd`, which it composes.
- MessageHistory.Query: a `pageSize` of 0 is excluded by its precondition, because Firebase refuses a limit of 0 on `queryLimited(toLast:)`.
- ChatTitle.ChannelTitle: counts Unicode scalar values, where Swift's `count` and `prefix` count grapheme clusters.
- VoicePlayer.VoiceMessagePlayer.Seek: `CMTime(seconds:preferredTimescale: 1)` rounds the target to whole seconds; the model keeps the requested time.
- VoicePlayer.VoiceMessagePlayer.PlayAudio: the end-of-playback notification observer is not modelled (its handler is `stopAudioPlayer`, which is). The previous player's time observer is also not removed when a new URL starts, and the model reduces observers to one flag.
- `AVPlayer`, animations and their delays, haptics and all SwiftUI/UIKit layout are not modelled.
- The backend's Cloud Functions are not part of this model.

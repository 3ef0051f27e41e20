# Shifted: a Dafny model of the app's decision logic

Shifted is a SwiftUI app for car owners with three parts: a marketplace of listings,
buyer–seller chats, and a question-and-answer forum. All three sit on a Firebase document store
and Firebase authentication. This project models the rules the app applies around that store:

- how records are written, and how stored documents decode back into records;
- how a chat is identified, created and appended to;
- how listings are saved, updated and deleted (deletion is gated on ownership);
- what the list screens show: search and filter, ordering, and dropping undecodable documents;
- the model and VIN pickers of the forum's filter sheet and of the ask-a-question form;
- posting and upvoting answers;
- the login and sign-up form checks.

The store is the class `Documents.Database`. It holds one map per collection: chats, messages
(each chat's log, in the order messages were added), users, listings, questions, and answers
per question. Every source function that writes to the store is a method whose `modifies`
clause names only the collections it touches.

Each screen whose state changes in place is a class with the same fields:

- `ChatsScreen`, `ChatDetailScreen`, `MessageManager`;
- `ListingDetailScreen`, `MarketplaceScreen`;
- `ForumScreen`, `FilterScreen`, `QuestionForm`, `QuestionScreen`;
- `LoginScreen`, `SignUpScreen`.

The filter sheet edits the forum's selections through bindings. It holds a reference to the
`ForumScreen` and writes that screen's fields.

Anything the SDK or the network decides is a parameter of the method it affects:

- whether a write or read succeeds;
- the generated document ids, UUIDs and clock readings;
- the signed-in user (`Option<User>`);
- each query delivery (`Snapshot`);
- each HTTP reply (already parsed into a `Json` value).

Each asynchronous completion is one atomic step.

A query's ordering (`order(by:)`) and its `arrayContains` filter are guarantees of the store.
The lemmas take them as hypotheses (`OldestFirst`, `NewestFirst`, `IncludesParticipant`). They
then prove, for every listener and query, that the decoded list keeps the order and contains
only, and all of, the decodable documents.

Points where the model follows the code rather than the documented design:

- **`createChat` is not a create-or-get.** The app's design describes an idempotent upsert
  that leaves an existing conversation alone. The code instead overwrites the chat record with
  `setData`, which replaces `lastMessage` and `createdAt`, and appends another first message.
  `ChatService.CreateChat` models the code. `ChatService.CreateChatTwice` shows the
  consequence: one record, carrying the second call's text, and two first messages.
- **`Chat.createdAt` must be present to decode.** It uses the app's own non-optional
  `ServerTimestamp` wrapper, so the synthesized decoder requires the key. The wrapper then
  reads any value leniently: a timestamp gives its date, anything else gives nil.
- **An invalid VIN URL keeps the previous results.** In `FilterView.decodeVIN` this path only
  sets "Invalid VIN URL." and does not empty `decodedVINData`. Every reply failure does empty
  it.
- **`Answer.upvotes` must be stored.** Its default value does not make the key optional for
  the synthesized decoder.

## Model

| member | source | states |
|---|---|---|
| ChatRecords.EncodeServerTimestamp | Shifted/Shifted/Chat.swift:35-38 | decoding what the wrapper writes gives back the wrapped date; nil is written as null |
| ChatRecords.ServerTimestampLenient | Shifted/Shifted/Chat.swift:26-33 | decoding never fails; a date comes back exactly for a timestamp value, and nil for any other value |
| ChatRecords.ChatFieldsRoundTrip | Shifted/Shifted/ChatService.swift:25-29 | the chat record `createChat` writes decodes to a chat with those participants, the first message as `lastMessage`, the creation time, and no id |
| ChatRecords.ChatMinimalRecord | Shifted/Shifted/Chat.swift:11-16 | a string-array `participants` and a `createdAt` key are enough; `id` and `lastMessage` may be missing; a non-timestamp `createdAt` reads as nil |
| ChatRecords.ChatRequiredKeys | Shifted/Shifted/Chat.swift:11-16 | a record without string-array participants, or without the `createdAt` key, does not decode |
| ChatRecords.MessageFieldsRoundTrip | Shifted/Shifted/ChatService.swift:41-46 | the message record the app writes decodes to the same id, text, timestamp and username |
| ChatRecords.MessageRequiredKeys | Shifted/Shifted/Chat.swift:53-58 | a message decodes only when all four keys hold values of their types, and then to exactly those values |
| ChatService.SortedPair | Shifted/Shifted/ChatService.swift:22 | the participants are the two uids (same multiset), in non-decreasing order |
| ChatService.ChatIdShape | Shifted/Shifted/ChatService.swift:22-23 | the chat id is the smaller uid, `_`, the larger uid |
| ChatService.ChatIdCommutative | Shifted/Shifted/ChatService.swift:22-23 | both parties derive the same chat id |
| ChatService.ChatIdInjective | Shifted/Shifted/ChatService.swift:22-23 | for uids without `_`, two pairs share an id exactly when they are the same unordered pair |
| ChatService.ChatIdCollisionWithSeparator | Shifted/Shifted/ChatService.swift:22-23 | with `_` inside uids, the different pairs ("a_b","c") and ("a","b_c") share the id "a_b_c" |
| ChatService.FullNameCases | Shifted/Shifted/ChatService.swift:115-118 | the present names are joined with one space; the result is nil exactly when that join is empty |
| ChatService.FetchUserName | Shifted/Shifted/ChatService.swift:106-124 | nil on a lookup error or a missing profile; otherwise the composed full name, never the empty string |
| ChatService.FetchedChatsFailures | Shifted/Shifted/ChatService.swift:63-84 | without a user, or on an error or a missing snapshot, the completion receives an empty list |
| ChatService.FetchedChatsExactly | Shifted/Shifted/ChatService.swift:70-98 | the chats handed out are exactly the decodable documents; each carries its document's id and includes the signed-in user |
| ChatService.FetchedChatsNewestFirst | Shifted/Shifted/ChatService.swift:70-98 | chats come newest first by `createdAt` when the store delivers documents that way |
| ChatService.CreateChat | Shifted/Shifted/ChatService.swift:15-59 | no user or a failed record write: nil and nothing written; otherwise the record at the sorted-pair id is overwritten, the first message is appended if its write succeeds, and the id is returned either way |
| ChatService.CreateChatTwice | Shifted/Shifted/ChatService.swift:22-33 | creating the same pair's chat twice leaves one record with the second text and two more messages in the log |
| MessageManagement.MessagesOldestFirst | Shifted/Shifted/MessageManager.swift:18-53 | the published messages are in timestamp order when the store delivers them oldest first |
| MessageManagement.MessagesExactly | Shifted/Shifted/MessageManager.swift:33-53 | a published message is exactly the decoding of a snapshot document, under that document's id |
| MessageManagement.MalformedMessageSkipped | Shifted/Shifted/MessageManager.swift:36-52 | an undecodable document is dropped silently and its neighbours are kept in order |
| MessageManagement.WellFormedLogComplete | Shifted/Shifted/MessageManager.swift:33-40 | when every document decodes, nothing is dropped and the ids are the document ids in order |
| MessageManagement.SentMessagePublished | Shifted/Shifted/MessageManager.swift:65-74 | a sent message appears at the end of the list with its text, timestamp and username |
| MessageManagement.ProjectionTouchesOnlyLastMessage | Shifted/Shifted/MessageManager.swift:86-89 | updating `lastMessage` changes that field of that chat only, and never creates a chat |
| MessageManagement.ProjectionKeepsChat | Shifted/Shifted/MessageManager.swift:86-89 | a decodable chat stays decodable, with only `lastMessage` changed |
| MessageManagement.MessageManager.constructor | Shifted/Shifted/MessageManager.swift:12 | the message list starts empty |
| MessageManagement.MessageManager.FetchMessages | Shifted/Shifted/MessageManager.swift:16-20 | registers one listener for the chat |
| MessageManagement.MessageManager.OnSnapshot | Shifted/Shifted/MessageManager.swift:20-53 | an error or a missing snapshot keeps the list; documents replace it with their decodable messages |
| MessageManagement.MessageManager.SendMessage | Shifted/Shifted/MessageManager.swift:59-84 | no user or a failed append writes nothing; otherwise the message is appended, and only then is `lastMessage` updated (if that update succeeds) |
| MessageManagement.MessageManager.UpdateLastMessage | Shifted/Shifted/MessageManager.swift:86-96 | a successful update applies the projection; a failed one leaves the chats as they were |
| ChatsList.OtherParticipant | Shifted/Shifted/ChatsView.swift:41-44 | the first participant other than the signed-in user; none exactly when every participant is that user |
| ChatsList.PendingLookupsExactly | Shifted/Shifted/ChatsView.swift:55-66 | a pass looks up exactly the counterparts of the listed chats that are not yet in the memo |
| ChatsList.ChatsScreen.constructor | Shifted/Shifted/ChatsView.swift:12-14 | no chats and no memoized names at the start |
| ChatsList.ChatsScreen.ParticipantLookups | Shifted/Shifted/ChatsView.swift:55-66 | the loop issues the pending lookups in chat order, and none of them is already memoized |
| ChatsList.ChatsScreen.OnChatsDelivered | Shifted/Shifted/ChatsView.swift:46-53 | the delivered chats replace the list, then name resolution runs over them |
| ChatsList.ChatsScreen.OnNameResolved | Shifted/Shifted/ChatsView.swift:59-63 | stores the name, or "Unknown" for nil; no memoized name is removed |
| ChatsList.ChatsScreen.Shown | Shifted/Shifted/ChatsView.swift:17-31 | "No conversations found." exactly when there are no chats; otherwise one row per chat in list order, with its counterpart's name and its last message |
| ChatsList.ChatsScreen.RowUserName | Shifted/Shifted/ChatsView.swift:27 | the memoized name of the chat's counterpart, "Unknown" while it is unresolved; the title is always a memoized name or "Unknown" |
| ChatsList.RowLastMessage | Shifted/Shifted/ChatsView.swift:28 | the row shows the last message, or "No message available" |
| ChatsList.ResolvedNameShownAndNotRefetched | Shifted/Shifted/ChatsView.swift:57-61 | once resolved, a counterpart's name is stored and never looked up again |
| ChatDetail.OutgoingClassification | Shifted/Shifted/ChatDetailView.swift:25 | a message is outgoing exactly when its username is the signed-in user's e-mail; a user without an e-mail sees their own messages as incoming |
| ChatDetail.SendBar.constructor | Shifted/Shifted/ChatDetailView.swift:77 | the draft starts empty |
| ChatDetail.SendBar.Tap | Shifted/Shifted/ChatDetailView.swift:86-98 | a non-empty draft is sent as typed and then cleared; an empty draft sends nothing; it sends exactly when the button is enabled (`SendEnabled`: the draft is non-empty) |
| ChatDetail.SendBar.SendEnabled | Shifted/Shifted/ChatDetailView.swift:98 | the send button is enabled exactly while the draft is non-empty |
| ChatDetail.ChatDetailScreen.constructor | Shifted/Shifted/ChatDetailView.swift:13-15 | a fresh manager with no messages and an empty draft |
| ChatDetail.ChatDetailScreen.Appear | Shifted/Shifted/ChatDetailView.swift:38-40 | subscribes to this chat's messages |
| ChatDetail.ChatDetailScreen.Rows | Shifted/Shifted/ChatDetailView.swift:22-27 | one row per message in list order, carrying its text and outgoing flag |
| ChatDetail.ChatDetailScreen.TapSend | Shifted/Shifted/ChatDetailView.swift:32-34 | a non-empty draft is sent to this chat and cleared; an empty one writes nothing |
| Listings.ListingRoundTrip | Shifted/Shifted/Listing.swift:10-20 | a stored listing decodes back unchanged |
| Listings.FetchListingsExactly | Shifted/Shifted/ListingService.swift:16-36 | fetched listings are exactly the decodable documents, each under its document id, newest first when the store orders them so |
| Listings.FetchListingsError | Shifted/Shifted/ListingService.swift:19-34 | an error or a missing snapshot yields no listings |
| Listings.SaveListing | Shifted/Shifted/ListingService.swift:41-61 | a serialisation or write error gives false with its message and writes nothing; success stores the listing under the new id, with that id inside the record, and returns true with the id |
| Listings.UpdateListing | Shifted/Shifted/ListingService.swift:64-84 | an empty id, a serialisation error or a write error gives false and writes nothing; success overwrites the document at the listing's id |
| Listings.DeleteListing | Shifted/Shifted/ListingService.swift:87-124 | deletes exactly when a user is signed in, the read and the delete succeed, and the stored `sellerId` is that user; otherwise nothing changes |
| ListingDetail.ActionsShown | Shifted/Shifted/ListingDetailView.swift:63-99 | the owner gets Edit and Delete, everyone else Message Seller, never both |
| ListingDetail.IsCurrentUserOwner | Shifted/Shifted/ListingDetailView.swift:148-153 | only a signed-in user can own a listing, and a signed-in user owns it exactly when the uid is the listing's seller |
| ListingDetail.ListingDetailScreen.constructor | Shifted/Shifted/ListingDetailView.swift:12-18 | the seller name starts as "Loading..." and no chat is open |
| ListingDetail.ListingDetailScreen.OnSellerName | Shifted/Shifted/ListingDetailView.swift:122-128 | shows the looked-up name, or "Unknown" |
| ListingDetail.ListingDetailScreen.InitiateChat | Shifted/Shifted/ListingDetailView.swift:130-146 | does nothing without a user or for the seller; otherwise creates the chat with the fixed opener, and opens it only when an id comes back |
| ListingDetail.ListingDetailScreen.Delete | Shifted/Shifted/ListingDetailView.swift:155-165 | the screen is dismissed exactly when the ownership-gated delete succeeds |
| ListingDetail.InitiatedChatPairsBuyerAndSeller | Shifted/Shifted/ListingDetailView.swift:131-136 | a chat started from a listing pairs two different people, the buyer and the seller |
| Marketplace.FilteredListingsSpec | Shifted/Shifted/MarketplaceView.swift:18-24 | an empty search shows all listings; otherwise exactly those whose title contains the text, ignoring case, in the original order |
| Marketplace.FoundByPieceOfTitle | Shifted/Shifted/MarketplaceView.swift:18-24 | searching for any non-empty piece of a listing's own title shows that listing |
| Marketplace.Thumbnail | Shifted/Shifted/MarketplaceView.swift:120 | a card shows the first image only when one exists and it is not empty |
| Marketplace.MarketplaceScreen.constructor | Shifted/Shifted/MarketplaceView.swift:12-14 | no listings, an empty search, and loading at the start |
| Marketplace.MarketplaceScreen.Shown | Shifted/Shifted/MarketplaceView.swift:40-59 | a spinner exactly while loading; otherwise the empty-state text or the non-empty filtered cards |
| Marketplace.MarketplaceScreen.SetupListener | Shifted/Shifted/MarketplaceView.swift:67-68 | loading starts |
| Marketplace.MarketplaceScreen.OnSnapshot | Shifted/Shifted/MarketplaceView.swift:72-97 | loading ends after every delivery; an error or a missing snapshot keeps the listings, and documents replace them with `MarketplaceListings` of the delivery |
| Marketplace.MarketplaceListings | Shifted/Shifted/MarketplaceView.swift:85-92 | at most one listing per document, and one for every document when all decode |
| Marketplace.MarketplaceListingsExactly | Shifted/Shifted/MarketplaceView.swift:70-95 | a delivery shows exactly the listings its documents decode to (stored id kept, failures dropped), newest first when the store orders by `createdAt` descending |
| Marketplace.SavedListingShown | Shifted/Shifted/MarketplaceView.swift:85-95 | a listing saved by `saveListing` shows in the marketplace under its generated id |
| Forum.DecodeQuestion | Shifted/Shifted/Question.swift:10-20 | decodes exactly when the six string properties and the `createdAt` timestamp are present and `category` is absent, null or a string; the id is the document id |
| Forum.QuestionsFromSpec | Shifted/Shifted/ForumView.swift:124-141 | the fetched questions are exactly the decodable documents, newest first when the store orders them so |
| Forum.FilteredQuestionsSpec | Shifted/Shifted/ForumView.swift:103-110 | a question is shown exactly when it meets all four criteria; the survivors keep their order |
| Forum.UnfilteredShowsAll | Shifted/Shifted/ForumView.swift:103-110 | an empty search plus the three sentinels shows every question |
| Forum.NoFilterMeansSearchOnly | Shifted/Shifted/ForumView.swift:112-114 | with no filter applied, only the search text restricts the list |
| Forum.ForumScreen.Shown | Shifted/Shifted/ForumView.swift:54 | the shown questions are questions of the list meeting the search and the three selections, in list order; with an empty search and no filter, every question |
| Forum.ForumScreen.FilterApplied | Shifted/Shifted/ForumView.swift:44-46 | "Clear Filter" shows when the year, make or model is off its sentinel; while it does not, only the search text restricts the list |
| Forum.ForumScreen.constructor | Shifted/Shifted/ForumView.swift:12-20 | empty search and VIN text, with the selections at their sentinels |
| Forum.ForumScreen.ClearFilter | Shifted/Shifted/ForumView.swift:116-122 | all five inputs are reset, no filter is applied, and every question shows |
| Forum.ForumScreen.OnQuestionsFetched | Shifted/Shifted/ForumView.swift:127-140 | an error or a missing snapshot keeps the list; documents replace it |
| Vehicles.Years | Shifted/Shifted/FilterView.swift:18 | the sentinel, then the years 2025 down to 1900 |
| Vehicles.YearsDistinct | Shifted/Shifted/FilterView.swift:18 | every picker entry is distinct, and each year from 1900 to 2025 sits at its place |
| Vehicles.ModelNames | Shifted/Shifted/CreateQuestionView.swift:155-160 | decodes only when every entry has a string `Model_Name`, and then gives those names in order |
| Vehicles.DecodeModelResponse | Shifted/Shifted/CreateQuestionView.swift:155-160 | a model response is an object whose `Results` is an array of model entries |
| Vehicles.ModelPicker.constructor | Shifted/Shifted/FilterView.swift:20-21 | the model list is the sentinel alone, and nothing is loading |
| Vehicles.ModelPicker.FetchModels | Shifted/Shifted/FilterView.swift:108-120 | a sentinel make or year resets the list and sends nothing; otherwise a well-formed URL starts loading |
| Vehicles.ModelPicker.OnModelsReply | Shifted/Shifted/FilterView.swift:121-141 | loading ends; a decodable reply gives the sentinel followed by the model names; anything else keeps the list |
| Vehicles.VinDictionaryKeys | Shifted/Shifted/FilterView.swift:168-174 | a variable is a key exactly when some result pairs it with a string value |
| Vehicles.VinDictionaryLastWins | Shifted/Shifted/FilterView.swift:168-174 | the last result naming a variable decides its value |
| Vehicles.FoldVinResults | Shifted/Shifted/FilterView.swift:168-174 | the loop builds exactly the VIN dictionary |
| Vehicles.VinResults | Shifted/Shifted/FilterView.swift:166-167 | the reply's results are accepted only when every entry is an object |
| ForumFilter.VinFailure | Shifted/Shifted/FilterView.swift:151-196 | a reply fails exactly when it is not a parsed object with an array of objects under `Results`; a bare JSON fragment is a parse error ("Error parsing VIN response: …"), and an object or array without such results is "Unexpected response format." |
| ForumFilter.Updated | Shifted/Shifted/FilterView.swift:179-187 | a selection takes the decoded value when its key is present, and is untouched otherwise |
| ForumFilter.FilterScreen.constructor | Shifted/Shifted/FilterView.swift:11-23 | bound to the forum; the model list is the sentinel; there is no VIN data and no error |
| ForumFilter.FilterScreen.DecodeEnabled | Shifted/Shifted/FilterView.swift:74 | "Decode VIN" is enabled exactly while the VIN text is non-empty |
| ForumFilter.FilterScreen.SelectionChanged | Shifted/Shifted/FilterView.swift:35-49 | the model-list rule on the forum's selections: a sentinel resets the list; real selections with a URL that forms start loading and keep the list; a URL that fails to form changes nothing |
| ForumFilter.FilterScreen.DecodeVin | Shifted/Shifted/FilterView.swift:144-149 | a VIN that forms no URL only sets "Invalid VIN URL." |
| ForumFilter.FilterScreen.OnVinReply | Shifted/Shifted/FilterView.swift:151-198 | every failure empties the data and sets its error; success stores the dictionary, clears the error, and updates year, make and model only from keys that are present |
| ForumFilter.DecodedMake | Shifted/Shifted/FilterView.swift:182-184 | the make becomes the value of the last result naming "Make" |
| ForumFilter.YearKeptWithoutModelYear | Shifted/Shifted/FilterView.swift:179-181 | with no "Model Year" result the year selection is untouched |
| AskQuestion.QuestionRecord | Shifted/Shifted/CreateQuestionView.swift:131-140 | the record has exactly the eight keys the form writes |
| AskQuestion.SavedQuestionReadsBack | Shifted/Shifted/CreateQuestionView.swift:131-140 | a saved question reads back in the forum with every form value, under its document id |
| AskQuestion.CreatorId | Shifted/Shifted/CreateQuestionView.swift:139 | the author is the signed-in uid, or "" |
| AskQuestion.QuestionForm.constructor | Shifted/Shifted/CreateQuestionView.swift:16-26 | the form starts empty, at the three sentinels and "General" |
| AskQuestion.QuestionForm.SelectionChanged | Shifted/Shifted/CreateQuestionView.swift:88-101 | the same model-list rule on the form's selections: a sentinel resets the list and leaves loading alone; a URL that forms starts loading; a URL that fails to form changes nothing |
| AskQuestion.QuestionForm.SaveQuestion | Shifted/Shifted/CreateQuestionView.swift:125-152 | an empty title or a failed write changes nothing and triggers nothing; success adds the record, then runs the callback (when present), posts the notification and dismisses, in that order |
| AskQuestion.SentinelValuesStoredVerbatim | Shifted/Shifted/CreateQuestionView.swift:18-20 | a question saved at the sentinels matches a forum filter only while that filter is off |
| Answers.AsDictionary | Shifted/Shifted/Answer.swift:18-25 | the serialised answer has exactly the keys creatorId, text, createdAt and upvotes |
| Answers.DecodeAnswer | Shifted/Shifted/Answer.swift:10-16 | decodes exactly when the four keys hold values of their types; the id is the document id |
| Answers.AnswerRoundTrip | Shifted/Shifted/Answer.swift:18-25 | a stored answer reads back unchanged, with the document id as its id |
| Answers.IdNotSerialised | Shifted/Shifted/Answer.swift:11-25 | answers that differ only in their id serialise identically |
| Answers.NewAnswer | Shifted/Shifted/QuestionDetailView.swift:84-89 | a new answer has no id, the user and text given, and 0 upvotes |
| QuestionDetail.AnswersFromSpec | Shifted/Shifted/QuestionDetailView.swift:68-79 | the answers are exactly the decodable documents, newest first when the store orders them so |
| QuestionDetail.WithUpvote | Shifted/Shifted/QuestionDetailView.swift:102-105 | an upvote never adds or removes a question or an answer |
| QuestionDetail.UpvoteChangesOnlyThatCount | Shifted/Shifted/QuestionDetailView.swift:102-105 | only the named answer's count changes; it keeps its other properties |
| QuestionDetail.RepeatedUpvoteOfStaleCount | Shifted/Shifted/QuestionDetailView.swift:101-105 | two upvotes of the same displayed count store the same result as one |
| QuestionDetail.QuestionScreen.constructor | Shifted/Shifted/QuestionDetailView.swift:13-15 | no answers and an empty draft |
| QuestionDetail.QuestionScreen.QuestionKey | Shifted/Shifted/QuestionDetailView.swift:69 | the answers hang off the question's id, or off "" for a question without one |
| QuestionDetail.QuestionScreen.PostEnabled | Shifted/Shifted/QuestionDetailView.swift:55 | "Post" is enabled exactly while the draft is non-empty |
| QuestionDetail.QuestionScreen.OnAnswersSnapshot | Shifted/Shifted/QuestionDetailView.swift:71-78 | an error or a missing snapshot keeps the list; documents replace it |
| QuestionDetail.QuestionScreen.AddAnswer | Shifted/Shifted/QuestionDetailView.swift:82-98 | no user or a failed write changes nothing; success adds the new answer and clears the draft |
| QuestionDetail.QuestionScreen.UpvoteAnswer | Shifted/Shifted/QuestionDetailView.swift:101-110 | an answer without an id is not upvoted; otherwise the stored count is set to the displayed count plus one |
| QuestionDetail.PostedAnswerShown | Shifted/Shifted/QuestionDetailView.swift:84-91 | a posted answer shows at the end of the list with 0 upvotes, under its document id |
| Login.AuthDecision | Shifted/Shifted/LoginView.swift:95-106 | rejected exactly when the email or password is empty, or a name is empty in sign-up mode; otherwise the current mode's call with exactly the values entered |
| Login.NamesIgnoredWhenLoggingIn | Shifted/Shifted/LoginView.swift:96 | login mode ignores the name fields |
| Login.LoginScreen.constructor | Shifted/Shifted/LoginView.swift:13-18 | empty fields, login mode, and no error |
| Login.LoginScreen.HandleAuth | Shifted/Shifted/LoginView.swift:95-106 | a rejected form sets "Please fill in all fields." and calls nothing; an accepted one calls and leaves the error text |
| Login.LoginScreen.ToggleMode | Shifted/Shifted/LoginView.swift:71-73 | flips the mode |
| SignUpForm.SignUpDecision | Shifted/Shifted/SignUpView.swift:71-83 | the empty-field message takes precedence over the mismatch message; the call is made only when both checks pass, with the four values |
| SignUpForm.AgreesWithLoginForm | Shifted/Shifted/SignUpView.swift:71-83 | this form signs up exactly when the login form in sign-up mode would and the confirmation matches, and then with the same call |
| SignUpForm.SignUpScreen.constructor | Shifted/Shifted/SignUpView.swift:13-18 | all fields empty and no error |
| SignUpForm.SignUpScreen.HandleSignUp | Shifted/Shifted/SignUpView.swift:71-83 | a rejection sets its message and calls nothing; otherwise `signUp` is called |

## Left out

- The Firebase SDK itself is not modelled: queries, listener registration and removal, the offline cache, security rules. Their outcomes are parameters, and query order and filters are lemma hypotheses.
- Asynchrony is not modelled. Each completion and each main-queue hop is one atomic step, and interleavings between completions are not explored.
- URLSession requests, URL construction and percent-encoding are not modelled. Whether a URL forms is a parameter, and replies arrive as parsed JSON.
- The `NotificationCenter` observer that re-fetches the forum when a question is created is not modelled. The post is recorded as an effect of `SaveQuestion`; the re-fetch is not.
- `localizedCaseInsensitiveContains` is modelled as an ASCII lower-case substring test. Locale-aware case folding is a foreign library.
- Swift's `String` ordering (used to sort the chat pair) is modelled as lexicographic order on characters, without Unicode normalisation.
- The listing price (`Double`) is an integer, and dates are integer timestamps. The `%.2f` price formatting is view code.
- View layout, images, navigation links and the Cancel/Apply buttons are left out; those two buttons only dismiss the filter sheet.
- `AuthManager.signIn`/`signUp` are shown only as the call the forms hand over. `AuthManager.swift`, `CreateListingView.swift`, `EditListingView.swift`, `ProfileView.swift`, `TabBarView.swift` and `ShiftedApp.swift` are not part of this model.
- QuestionDetail.QuestionScreen.UpvoteAnswer: does not model Swift's overflow trap on `answer.upvotes + 1` at `Int.max`, because integers here are unbounded.
- Listings.SaveListing: does not model the generated document id being fresh; the id is a parameter, and the store is updated at that key whatever it held.

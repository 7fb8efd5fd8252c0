# crewconnect: a verified model of the event-handler rules

crewconnect is a task and team management web app. Admins create teams and assign
tasks with deadlines and reference links. Employees comment on tasks and ask for
completion. Both sides chat. All of its state lives in a hosted document store
(`users`, `tasks`, `teams`) and a hosted realtime store (the chat lists). The rules
worth verifying sit inside the components' event handlers.

This model puts the hosted stores in one in-memory class, `Store.Db`, with one map
per collection. A chat list is keyed by its full path (`chats/...`). Three more things
are written out:

- `arrayUnion` is an append that skips values already present (`Store.ArrayUnion`).
- A query is a filter over a snapshot.
- An update of a missing document fails.

Each component whose handlers change its state becomes a class with the same fields.
Each handler becomes a method whose `ensures` gives the new state of the component and
of the store on every path: the guard, a remote failure, and success. Things the code
cannot compute itself are method parameters:

- the answers of remote calls (`readFails`, `writeFails`, an `AuthResult`);
- generated document and push keys (required to be fresh);
- the clock (`now`, an opaque integer);
- the answer to the confirmation dialog.

The pure parts are functions with lemmas:

- the reference-link parser;
- the two chat keys;
- the sorted message and comment lists;
- the team projection and labels;
- the user-record construction.

JavaScript behaviour the rules depend on is written out in module `Text`:

- `String.prototype.trim` and its whitespace set;
- `split` and `join`;
- the default array sort, which compares strings character by character (`LexLe`).

Module `Sorting` does the same for the stable sort with a numeric comparator.

Two invariants are kept by every handler that writes the collection they are about:

- a user's `admin` flag agrees with the user's role (`Store.AllRolesConsistent`), kept by
  the sign-up handlers, the admin approval and both team-creation handlers;
- every task status is `pending` or `requested` (`Store.KnownStatuses`), kept by every
  handler that creates, comments on or completes a task.

The team-creation handlers also keep every user's team list pointing at stored teams
(`TeamsDashboard.TeamListsResolve`).

There are two chat views. The one-to-one chat keys a conversation by the sorted pair
of ids (`a-b`), and that key is symmetric. The chat page keys it as `adminId_userId`,
and that key is order-sensitive. The two views also use different path shapes
(`chats/{key}/messages` against `chats/{key}`). `AdminChat.ChatViewsFork` proves that
for slash-free ids they never use the same path. The realtime store is a tree, so a
path can also lie inside another: with ids `a_b` and `c` on one side and `a` and `b-c`
on the other, the chat page's channel `chats/a_b-c` holds the one-to-one chat's
`chats/a_b-c/messages`. `AdminChat.ChatViewsApart` proves this cannot happen when the
one-to-one ids have no underscore and the chat-page ids have no slash: neither path is
a prefix of the other.

## Model

| member | source | states |
|---|---|---|
| CreateTask.GetLinksArray | src/components/CreateTaskModal.jsx:18-23 | split on newlines, trim each line, drop the empty ones |
| CreateTask.LinksAreClean | src/components/CreateTaskModal.jsx:18-23 | every parsed link is non-empty, equals its own trim and has no line break; there are at most (number of newlines + 1) links |
| CreateTask.LinksEmptyIffBlank | src/components/CreateTaskModal.jsx:18-23 | no links come out exactly when the input is whitespace only (line breaks included) |
| CreateTask.LinksOfConcatenation | src/components/CreateTaskModal.jsx:19-22 | links keep the order of their lines: parsing two blocks joined by a newline gives the first block's links followed by the second's |
| CreateTask.LinksRoundTrip | src/components/CreateTaskModal.jsx:18-23 | clean links written one per line parse back to the same list |
| CreateTask.CreateTaskModal.HandleCreateTask | src/components/CreateTaskModal.jsx:35-104 | a blank title or description alerts and changes nothing; a failed assignee read, missing assignee record, missing user or failed write alerts and writes nothing; otherwise the task is written untrimmed, `pending`, with the parsed links, the modal closes, the form resets, the assignee's email gets the mail, and a failed mail is only logged; `isCreating` ends false; new tasks name an existing assignee; known statuses are kept |
| AdminDashboard.TasksAssignedBy | src/components/AdminDashboard.jsx:41-44 | the listed tasks are exactly those the user assigned |
| AdminDashboard.Employees | src/components/AdminDashboard.jsx:31-34 | the employee list is exactly the users whose role is `employee` |
| AdminDashboard.AssigneeName | src/components/AdminDashboard.jsx:130 | the name of the first employee whose id matches when that name is non-empty; `Unknown` when none matches or that first name is empty; never a name of a non-matching employee |
| AdminDashboard.AdminDashboard.HandleAssignTask | src/components/AdminDashboard.jsx:64-78 | the form fields plus `pending` and the user's id are written with no field check, and the form resets; with no user or a failed write the error is set and the form kept; known statuses are kept |
| AdminDashboard.AssignWithoutChecks | src/components/AdminDashboard.jsx:64-72 | a task whose title is a single space (which the `required` input lets through and nothing trims) and whose assignee has no user record is written all the same |
| EmployeeDashboard.TasksAssignedTo | src/components/EmployeeDashboard.jsx:31-34 | the listed tasks are exactly those assigned to the user |
| EmployeeDashboard.RequestCompletionFields | src/components/EmployeeDashboard.jsx:50-53 | the completion update sets `status` to `requested` and `completedAt` to now and touches no other field |
| EmployeeDashboard.CanComplete | src/components/EmployeeDashboard.jsx:96 | the completion button is offered only for a pending task |
| EmployeeDashboard.RequestCompletion | src/components/EmployeeDashboard.jsx:50-53 | the partial update setting `status` to `requested` and `completedAt` to the time |
| EmployeeDashboard.EmployeeDashboard.CompleteFromList | src/components/EmployeeDashboard.jsx:96-103 | offered only for a task listed as pending; the stored task gets the completion update, or the error is set and the task left; when the listed copy is the stored one, a successful write moves its status from `pending` to `requested`; known statuses are kept |
| EmployeeDashboard.EmployeeDashboard.HandleCompleteTask | src/components/EmployeeDashboard.jsx:48-58 | the stored task gets the completion update without a status re-check; a failed write or missing task sets the error and leaves the task; known statuses are kept |
| EmployeeDashboard.EmployeeDashboard.ShowInfo | src/components/EmployeeDashboard.jsx:89-90 | the info modal opens on the chosen task |
| EmployeeDashboard.EmployeeDashboard.CloseInfo | src/components/EmployeeDashboard.jsx:119-120 | the modal closes and the selection is cleared |
| EmployeeDashboard.EmployeeDashboard.CompleteFromModal | src/components/EmployeeDashboard.jsx:173-178 | completing from the modal applies the completion to the selected task and closes the modal; known statuses are kept |
| Comments.DisplayOrder | src/components/CommentsModal.jsx:94 | the modal shows the local list reversed |
| Comments.NewComment | src/components/CommentsModal.jsx:29-33 | the stored comment is the trimmed input with the time, attributed to the task's assignee |
| Comments.DisplayNewestFirst | src/components/CommentsModal.jsx:40-94 | a comment appended to the local list is shown first, above the earlier display order |
| Comments.DisplayOrderAt | src/components/CommentsModal.jsx:94 | the display lists the stored comments backwards, entry for entry |
| Comments.CommentsModal.OnTaskChanged | src/components/CommentsModal.jsx:13-17 | the local list is seeded from the task's comments only when that field is present |
| Comments.CommentsModal.HandleAddComment | src/components/CommentsModal.jsx:25-47 | a blank comment or a submission in flight changes nothing; on success the stored list gains the trimmed comment, attributed to the assignee, by set union, the local list gains it at the end and the input clears; on failure only the flag changes; `isSubmitting` ends false |
| Comments.NewestFirstKey | src/components/ShowCommentsModal.jsx:8-12 | the comparator `dateB - dateA` sorts by descending timestamp, i.e. by ascending negated timestamp |
| Comments.SortedComments | src/components/ShowCommentsModal.jsx:8-12 | the sorted comments are a permutation of the input, newest first |
| Comments.SortedCommentsStable | src/components/ShowCommentsModal.jsx:8-12 | comments with equal timestamps keep their given order |
| Comments.ShownComments | src/components/ShowCommentsModal.jsx:4-12 | nothing is shown when closed; otherwise a permutation of the comments (absent meaning none) in newest-first order, empty exactly when there are none |
| TeamsDashboard.NewTeam | src/components/TeamsDashboard.jsx:66-70 | a new team has the entered name, the creator as admin and an empty member list |
| TeamsDashboard.AddTeam | src/components/TeamsDashboard.jsx:77-80 | the creator's team list gains the id, keeps its old entries as a prefix, and no other field changes |
| TeamsDashboard.ProjectTeams | src/components/TeamsDashboard.jsx:38-49 | the projected teams are stored teams with their data, and their ids are the user's ids with missing teams dropped, in order |
| TeamsDashboard.ProjectTeamsComplete | src/components/TeamsDashboard.jsx:38-49 | every listed id that has a team document appears in the projection |
| TeamsDashboard.MemberCount | src/components/TeamsDashboard.jsx:166 | the member count is the length of `employees`, or 0 when absent |
| TeamsDashboard.RoleLabel | src/components/TeamsDashboard.jsx:171-175 | `Admin` exactly when the viewer is the team's admin, `Member` otherwise |
| TeamsDashboard.TeamsDashboard.FetchUserTeams | src/components/TeamsDashboard.jsx:28-57 | the team list becomes the projection of the user's ids (absent meaning none); a missing user record or failed read leaves it; loading ends false |
| TeamsDashboard.TeamsDashboard.OnAuthStateChanged | src/components/TeamsDashboard.jsx:15-23 | signing in records the user and loads their teams; signing out clears the user and the list |
| TeamsDashboard.TeamsDashboard.HandleSubmit | src/components/TeamsDashboard.jsx:59-90 | without a user nothing is written; otherwise the team is written, and if the creator's list update also succeeds the list gains the id, the name resets and the page list becomes the projection of the creator's updated list, which shows the new team (kept as it was when the refresh fails); a failure after the team write leaves the team in place; team lists keep resolving to stored teams and roles stay consistent |
| CreateTeam.CreateTeamModal.HandleSubmit | src/components/CreateTeamModal.jsx:9-37 | the same two writes; callbacks and the name reset only after both succeed; if the second write fails the team exists but is not on the creator's list; team lists keep resolving and roles stay consistent |
| JoinTeam.Joined | src/components/JoinTeamModal.jsx:25-27 | after a join the user is a member, earlier members keep their places, nobody else is added, and name and admin are unchanged |
| JoinTeam.JoinedIdempotent | src/components/JoinTeamModal.jsx:26 | joining twice gives the same team as joining once |
| JoinTeam.JoinedNoDuplicates | src/components/JoinTeamModal.jsx:26 | a join never introduces a duplicate member |
| JoinTeam.JoinedMember | src/components/JoinTeamModal.jsx:26 | a member who is already listed changes nothing |
| JoinTeam.JoinTeamModal.HandleJoinTeam | src/components/JoinTeamModal.jsx:11-37 | the error is cleared first; an unknown team id gives `Invalid team ID` and writes nothing; an empty id, failed read or failed write gives the join-failure error; success adds the user, clears the id and closes; loading ends false on every path |
| EmployeeChat.ContainerId | src/components/EmployeeChat.jsx:12 | the key is the smaller id, a dash, then the larger id |
| EmployeeChat.ContainerIdSymmetric | src/components/EmployeeChat.jsx:12 | both participants derive the same key |
| EmployeeChat.ContainerIdInjective | src/components/EmployeeChat.jsx:12 | for dash-free ids, equal keys mean the same pair of participants |
| EmployeeChat.ContainerIdCollision | src/components/EmployeeChat.jsx:12 | ids containing a dash can make two different pairs share a key |
| EmployeeChat.MessagesPath | src/components/EmployeeChat.jsx:20-49 | the path is `chats/`, the key, then `/messages` |
| EmployeeChat.ListMessages | src/components/EmployeeChat.jsx:22-31 | no data gives an empty list; otherwise a permutation of the snapshot entries in ascending timestamp order |
| EmployeeChat.ListMessagesStable | src/components/EmployeeChat.jsx:28 | messages with equal timestamps keep the snapshot's order |
| EmployeeChat.Push | src/components/EmployeeChat.jsx:49-56 | a push adds the message under its key and leaves other paths and other messages as they were |
| EmployeeChat.SnapshotListed | src/components/EmployeeChat.jsx:20-31 | the list built from a snapshot of a path holds a message exactly when it is stored at that path under its key |
| EmployeeChat.PushedMessageListed | src/components/EmployeeChat.jsx:20-56 | a pushed message appears in the list built from any later snapshot of its path |
| EmployeeChat.EmployeeChat.Path | src/components/EmployeeChat.jsx:12-49 | the subscription and send path does not depend on which participant is the viewer |
| EmployeeChat.EmployeeChat.OnValue | src/components/EmployeeChat.jsx:20-33 | given a snapshot of the path the view sends on, the shown list becomes the sorted snapshot and holds exactly the messages stored at that path; loading ends |
| EmployeeChat.EmployeeChat.HandleSendMessage | src/components/EmployeeChat.jsx:45-59 | a blank input or a failed write changes nothing; otherwise the trimmed text with the sender's id and the time is pushed to the listened path, and the input clears |
| EmployeeChat.EmployeeChat.SentMessageShown | src/components/EmployeeChat.jsx:20-56 | after a successful send, the next snapshot of the listened path shows the trimmed message under its key |
| AdminChat.ChannelKey | src/app/chat/page.jsx:59 | the key is the admin id, an underscore, then the user id |
| AdminChat.ChannelPath | src/app/chat/page.jsx:59 | the path is `chats/` followed by the key |
| AdminChat.ChannelKeyInjective | src/app/chat/page.jsx:59 | for underscore-free ids, equal keys mean the same admin and the same user |
| AdminChat.ChannelKeyOrderSensitive | src/app/chat/page.jsx:59 | swapping two different underscore-free participants gives a different key |
| AdminChat.ChannelKeyCollision | src/app/chat/page.jsx:59 | ids containing an underscore can make two different pairs share a key |
| AdminChat.ChatViewsFork | src/app/chat/page.jsx:59 | for slash-free ids the two chat views never use the same path |
| AdminChat.ChatViewsApart | src/app/chat/page.jsx:59 | for one-to-one ids without an underscore and chat-page ids without a slash, neither view's path is a prefix of the other's, so neither lies inside the other |
| AdminChat.Admins | src/app/chat/page.jsx:31-41 | the admin list is exactly the users whose role is `admin` |
| AdminChat.AdminChat.ChatPath | src/app/chat/page.jsx:57-84 | there is a channel exactly when an admin is selected and a user is signed in, and listening and sending use the same path |
| AdminChat.AdminChat.FetchAdmins | src/app/chat/page.jsx:23-53 | with a user, the admin list becomes the admin users (kept on a failed read) and loading ends |
| AdminChat.AdminChat.HandleAdminSelect | src/app/chat/page.jsx:76-79 | selecting an admin opens the chat with that admin |
| AdminChat.AdminChat.OnValue | src/app/chat/page.jsx:59-71 | given a snapshot of the channel the page sends on, the message list becomes the sorted snapshot and holds exactly the messages stored in that channel |
| AdminChat.AdminChat.HandleSendMessage | src/app/chat/page.jsx:81-91 | with no channel or a failed write nothing is written; otherwise the untrimmed text with `isAdmin` false and the user's id is pushed to the listened path |
| AdminChat.AdminChat.CloseChat | src/app/chat/page.jsx:144-148 | closing clears the selection and the messages |
| AdminChat.AdminChat.SubmitFromChatBox | src/components/ChatBox.jsx:15-21 | a blank input sends nothing and is kept; a non-blank one clears the input and reaches the channel untrimmed, and with no channel or a failed write nothing is written |
| AdminChat.AdminChat.SentMessageShown | src/app/chat/page.jsx:59-91 | after a successful send on the open channel, the next snapshot of the channel shows the message under its key |
| ChatBox.IsOwn | src/components/ChatBox.jsx:46 | a message is one's own exactly when a user is signed in and it has that user's id |
| ChatBox.ChatBox.HandleSubmit | src/components/ChatBox.jsx:15-21 | a blank input is not forwarded and stays; otherwise the raw input is forwarded and cleared; a forwarded text is never blank |
| Signup.NewUserRecord | src/app/signup/page.jsx:25-67 | the role is `admin` exactly when the admin choice is made, else `employee`, and the flag agrees with the role |
| Signup.SignupErrorMessage | src/app/signup/page.jsx:35-39 | `Email already in use` exactly for the email-in-use code; the generic message otherwise |
| Signup.SignUp.HandleSignup | src/app/signup/page.jsx:19-41 | the error is cleared first; a failed account creation maps its code; a failed write gives the generic message; success writes the record with the entered name and redirects; role invariants are kept |
| Signup.SignUp.HandleGoogleSignIn | src/app/signup/page.jsx:42-75 | a failed sign-in or read gives the Google error; an existing record gives `User already exists...` and writes nothing; otherwise the record is written with the account's display name and the confirmed role; role invariants are kept |
| ApproveAdmin.Approved | src/app/api/approveAdmin/route.js:15 | approval sets the admin flag and the admin role and no other field |
| ApproveAdmin.ApprovedIdempotent | src/app/api/approveAdmin/route.js:15 | approving twice gives the same record as approving once |
| ApproveAdmin.ApprovedAsAdminSignup | src/app/api/approveAdmin/route.js:15 | an approved record is the one an admin sign-up would have written |
| ApproveAdmin.Get | src/app/api/approveAdmin/route.js:4-22 | an absent or empty uid gives 400 `Missing user ID` and writes nothing; a failed update (including a missing user) gives 500; otherwise the user is approved and 200 is returned; role invariants are kept |
| Store.ArrayUnion | src/components/TeamsDashboard.jsx:79 | the value ends up in the array, old entries stay as a prefix, and at most one entry is added |
| Store.ArrayUnionIdempotent | src/components/JoinTeamModal.jsx:26 | a repeated union has no further effect |
| Store.ArrayUnionNoDuplicates | src/components/JoinTeamModal.jsx:26 | a union never introduces a duplicate |
| Text.Trim | src/components/CreateTaskModal.jsx:21 | `trim`: whitespace cut from both ends |
| Text.Split | src/components/CreateTaskModal.jsx:20 | `split` on one character: the pieces between separators, at least one |
| Text.Join | src/components/EmployeeChat.jsx:12 | `join`: the pieces with the separator between consecutive ones |
| Text.LexLe | src/components/EmployeeChat.jsx:12 | the default sort's order on strings: character by character, a prefix first |
| Seqs.Filter | src/components/CreateTaskModal.jsx:22 | `filter`: exactly the elements that pass, in order, never more than the input |
| Seqs.Map | src/components/CreateTaskModal.jsx:21 | `map`: same length, each element transformed in place |
| Seqs.Reverse | src/components/CommentsModal.jsx:94 | `reverse`: the elements in the opposite order |
| Text.TrimIsSlice | src/components/CreateTaskModal.jsx:21 | the trim of a string is a contiguous slice of it, with only whitespace cut off at either end and no whitespace at its own ends |
| Text.TrimEmptyIffBlank | src/components/CreateTaskModal.jsx:38 | a string trims to empty exactly when it is whitespace only |
| Text.TrimIdempotent | src/components/CreateTaskModal.jsx:21 | trimming twice is trimming once |
| Text.SplitJoin | src/components/CreateTaskModal.jsx:20 | splitting a join of separator-free pieces gives back the pieces |
| Text.JoinSplit | src/components/CreateTaskModal.jsx:20 | joining the pieces of a split gives back the string |
| Text.LexLeTotal | src/components/EmployeeChat.jsx:12 | any two ids are comparable by the default string sort |
| Text.LexLeAntisymmetric | src/components/EmployeeChat.jsx:12 | two ids each sorting no later than the other are equal |
| Sorting.SortBy | src/components/EmployeeChat.jsx:28 | the numeric-comparator sort gives a sorted permutation of its input |
| Sorting.SortStable | src/components/EmployeeChat.jsx:28 | the sort keeps the relative order of entries with equal keys |

## Left out

- Sending the task mail and the admin-approval mail, and the mail's HTML body: these are I/O through an external relay. The model only records the recipient and the logged failure.
- Dates and locales: the deadline's date conversion, the `deadlineFormatted` field, and the date display helpers. Timestamps are opaque integers and the deadline is kept as the string entered.
- Subscriptions: registering and cleaning up listeners, and the order in which the backend lists a snapshot. A snapshot is an input sequence; `EmployeeChat.SnapshotOf` says how it relates to the stored messages of the listened path.
- Generated document ids and push keys are parameters, required to be fresh.
- Sign-in and account creation are inputs (`AuthResult`). The confirmation dialog's answer is a parameter.
- Accepting or rejecting a requested task: its handler is not part of this model.
- Removing a member, deleting a team and cascading task deletion: no modelled file implements them.
- A `pending` user role and the approval-email flow: no modelled file writes such a role.
- Routing, redirects and role-based page selection. Only the sign-up redirect is modelled, as a boolean.
- Presentation, scrolling, animations, the clipboard copy of a team id and the chat panel's width.
- Races between sessions and interleavings of awaited calls. Each handler runs to completion in one step. The dashboard's team refresh is not awaited in the source but runs in sequence here.
- Text.LexLe: orders by whole characters. The default sort compares UTF-16 code units, which differs only for characters outside the Basic Multilingual Plane.
- A team id containing `/` would address a nested document; team ids are treated as plain keys.
- JoinTeam.JoinTeamModal.HandleJoinTeam: an absent user id is modelled as a rejected write, as `undefined` is. A `null` user id, which the store would accept as a member, is not modelled.
- Signup.SignUp.HandleGoogleSignIn: the account's display name is taken as a string. An account without one, which would store `null`, is not modelled.
- Comment and message timestamps from a missing or non-numeric field, which would make the comparators return NaN, are not modelled.

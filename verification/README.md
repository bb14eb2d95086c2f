# GitLab comment notifications, modelled in Dafny

This project models how the Mattermost GitLab plugin turns a GitLab comment
webhook into chat notifications (`server/webhook/note.go`). A comment on an
issue or on a merge request produces, in this order:

1. a direct-message record from the commenter to the item's people. For an
   issue these are all its assignees in order, then its author. For a merge
   request they are its assignee, then its author;
2. the mention record, if the mention detector returns one;
3. at most one channel record. It lists every channel whose subscription to
   the repository has the capability for this kind of comment and passes the
   label check.

The handlers also return the warnings of the subscriptions that the label
check rejected with a non-empty warning. The record list goes through a final
clean-up step before it is returned.

The GitLab retriever and the package helpers whose code is not part of this
model are function-valued fields of one `Webhook.Collaborators` value:

- the username and profile-URL lookups;
- the subscription store and the namespace normalizer;
- a subscription's `IssueComments`/`MergeRequestComments` flags;
- `anyEventLabelInSubs`, `handleMention` and `cleanWebhookHandlers`;
- the decimal rendering of an integer (`%v`/`%d`).

Every statement holds for every choice of these collaborators that meets the statement's `requires`.

Files:

- `wrappers.dfy`: `Option` and `Result`.
- `webhook.dfy`: events, subscriptions, records and collaborators.
- `messages.dfy`: the two message templates.
- `subscriptions.dfy`: the subscription loop.
- `note.dfy`: the six handler functions.
- `scenarios.dfy`: the cases of the test table in `note_test.go`.

## Model

| member | source | states |
|---|---|---|
| Webhook.SubscriptionScope | server/webhook/note.go:67-70 | Two projects with the same path that are both public, or both not public, get the same subscriptions. Internal and private projects share one scope, and the web URL plays no part. |
| Messages.DmMessage | server/webhook/note.go:28 | The direct-message text is exactly as long as its six fields plus the 29 fixed characters of the template. |
| Messages.ChannelMessage | server/webhook/note.go:63 | The channel text is exactly as long as its eight fields plus the 37 fixed characters of the template. |
| Messages.DmMessageEndsWithReference | server/webhook/note.go:28 | The direct message ends with the link `[path#iid](commentUrl)` to the comment. |
| Messages.ChannelMessageOpensWithRepository | server/webhook/note.go:63 | The channel message starts with the repository link `[path](webUrl)`. |
| Messages.DmMessageOpensWithSender | server/webhook/note.go:28 | The direct message starts with the sender's name as link text, `[sender]`. |
| Messages.DmMessageNamesKind | server/webhook/note.go:113 | For the same sender, profile URL, path, number and comment link, the issue text and the merge-request text are never equal, because they name the kind of item. |
| Messages.ChannelMessageEndsWithBody | server/webhook/note.go:63 | The channel message ends with `:`, a blank line, and then the comment body unchanged. |
| Subscriptions.Screen | server/webhook/note.go:72-85 | A subscription without the capability is skipped, whatever the label check says. It is accepted, with its own channel id, exactly when it has the capability and the label check says ok. It is rejected exactly when it has the capability and the label check fails, and it then carries the check's warning. |
| Subscriptions.Visit | server/webhook/note.go:77-85 | One loop step: an accepted subscription appends its channel and leaves the warnings alone. A rejected one leaves the channels alone and appends its warning only when that is non-empty. A skipped one changes nothing. |
| Subscriptions.Filter | server/webhook/note.go:71-86 | The loop keeps at most one entry (channel or warning) per subscription. Every warning it keeps is non-empty. Every channel it keeps belongs to a subscription that accepted the event. |
| Subscriptions.FilterAppend | server/webhook/note.go:72-86 | Running the loop over two consecutive runs of subscriptions gives the first run's channels then the second's, and the same for warnings. |
| Subscriptions.FilterSingle | server/webhook/note.go:78-85 | For one subscription: an accepted one adds only its channel, even if the check also gave a warning. A rejected one adds its warning only if that warning is non-empty. A skipped one adds nothing. |
| Subscriptions.FilterIsReference | server/webhook/note.go:72-86 | The loop's channels are exactly the accepted channel ids in subscription order, without deduplication. Its warnings are exactly the non-empty warnings of rejected subscriptions, one per subscription, in order. |
| Subscriptions.SkippedIsInvisible | server/webhook/note.go:73-75 | A skipped subscription changes neither channels nor warnings, wherever it stands in the list. |
| Subscriptions.ChannelIffAccepted | server/webhook/note.go:77-86 | A channel id is in the result if and only if some subscription accepted the event for it. |
| Subscriptions.FilterNonEmptyIff | server/webhook/note.go:87 | The channel list is non-empty if and only if some subscription accepted the event. |
| Note.Usernames | server/webhook/note.go:31-33 | The looked-up usernames of a list of ids keep the list's length and order, position by position. |
| Note.IssueRecipients | server/webhook/note.go:30-34 | The issue recipient list has one entry per assignee id, plus one. Entry i is the username of assignee i, and the last entry is the author's username. Repeats are kept. |
| Note.MergeRequestRecipients | server/webhook/note.go:117 | The merge-request recipient list is exactly two entries: the assignee's username, then the author's. |
| Note.IssueMentionScope | server/webhook/note.go:44-50 | The mention detector's answer depends only on the sender, the repository path, the issue number, and the comment's URL and body. Two events that agree on those get the same answer, whatever the issue's title, labels and people. |
| Note.MergeRequestMentionScope | server/webhook/note.go:121-127 | The same for a merge-request comment, with the merge request's number. |
| Note.WithMention | server/webhook/note.go:44-52 | The direct-message record comes first. The mention record follows it if there is one; otherwise the list has only the direct-message record. |
| Note.DmIssueComment | server/webhook/note.go:26-55 | The issue DM step never fails. It returns one or two records. The first is from the sender, has no channels, carries the issue DM text, and goes to the assignees in order and then the author. The second, present exactly when a mention was found, is the mention record. |
| Note.DmMergeRequestComment | server/webhook/note.go:111-131 | The merge-request DM step never fails. Its first record goes to exactly `[username(assignee), username(author)]`, from the sender, with no channels. The mention record follows when there is one. |
| Note.Broadcast | server/webhook/note.go:87-95 | There is at most one channel record, and there is one exactly when the channel list is non-empty. It is from the sender, to no user, and to the channel list. The warnings pass through unchanged. |
| Note.ChannelIssueComment | server/webhook/note.go:57-96 | The issue channel step gives at most one record. There is one exactly when some subscription has the issue-comment capability and passes the label check. The record is from the sender, to no user, and to the kept channels, and carries the channel text. The warnings are the loop's warnings. |
| Note.ChannelMergeRequestComment | server/webhook/note.go:133-171 | The same as the issue channel step, using the merge-request-comment capability and the merge request's labels. |
| Note.Orchestrate | server/webhook/note.go:14-23 | When the DM step fails, there are no records, no warnings, and the error is passed on unchanged. Otherwise the call succeeds with the clean-up of the DM records followed by the channel records, and returns the channel step's warnings. |
| Note.IssueNotifications | server/webhook/note.go:23 | The list given to the clean-up has one DM record, then the mention record if any, then the channel record if any, and nothing else. Its length is 1, plus 1 for a mention, plus 1 when some channel was kept. |
| Note.MergeRequestNotifications | server/webhook/note.go:108 | The same order and length for a merge-request comment. |
| Note.HandleIssueComment | server/webhook/note.go:13-24 | Handling an issue comment always succeeds. It returns the cleaned-up list of the ordered records. Its warnings are the non-empty warnings of the capable subscriptions the label check rejected, in subscription order. |
| Note.HandleMergeRequestComment | server/webhook/note.go:98-109 | The same for a merge-request comment. |
| Note.IssueIncapableIgnored | server/webhook/note.go:72-75 | A subscription without the issue-comment capability adds no channel and no warning, whatever the issue's labels and the label check. |
| Note.MergeRequestIncapableIgnored | server/webhook/note.go:147-150 | A subscription without the merge-request-comment capability adds no channel and no warning. |
| Note.IssueChannelIff | server/webhook/note.go:72-86 | A channel is broadcast to if and only if some subscription with that channel id has the issue-comment capability and passes the label check. |
| Note.MergeRequestChannelIff | server/webhook/note.go:147-161 | The same for merge-request comments. |
| Scenarios.IssueDmText | server/webhook/note_test.go:36 | The issue fixture renders to the test's expected DM text. |
| Scenarios.IssueChannelText | server/webhook/note_test.go:41 | The issue fixture renders to the test's expected channel text. |
| Scenarios.SubgroupDmText | server/webhook/note_test.go:55 | The subgroup fixture renders to the test's expected DM text. |
| Scenarios.SubgroupChannelText | server/webhook/note_test.go:60 | The subgroup fixture renders to the test's expected channel text. |
| Scenarios.MergeRequestDmText | server/webhook/note_test.go:74 | The merge-request fixture renders to the test's expected DM text. |
| Scenarios.MergeRequestChannelText | server/webhook/note_test.go:79 | The merge-request fixture renders to the test's expected channel text. |
| Scenarios.IssueCommentScenario | server/webhook/note_test.go:28-46 | One subscription to channel1 with `issue_comments` gives two records and no warning: the DM with the test's text, then the broadcast to `["channel1"]` with the test's text. |
| Scenarios.SubgroupIssueCommentScenario | server/webhook/note_test.go:47-65 | The same holds with a three-segment subgroup path: with no mention there are exactly two records, the DM and then the broadcast to `["channel1"]`, with the test's texts, and no warning. |
| Scenarios.MergeRequestCommentScenario | server/webhook/note_test.go:66-84 | One subscription to channel1 with `merge_request_comments` gives the DM and then the broadcast, with the test's texts, and no warning. |
| Scenarios.IssueLabelWarningScenario | server/webhook/note_test.go:85-98 | When the label check rejects a subscription with the `issue_comments,label:` feature string with the quoting warning, and no mention is found, only the DM record is produced, from the sender and with the test's text, and the warnings are exactly that one warning. |
| Scenarios.MergeRequestLabelWarningScenario | server/webhook/note_test.go:99-112 | The same for `merge_request_comments,label:` on a merge request, when the label check rejects it with the quoting warning. |
| Scenarios.MergeRequestUnmatchedLabelScenario | server/webhook/note.go:152-158 | A capable subscription whose label check fails with an empty warning gives no channel record and no warning. |

## Left out

- `cleanWebhookHandlers`: it is an abstract function. Its code is not part of this model, so the ordering properties are stated for the list handed to it (`IssueNotifications`, `MergeRequestNotifications`).
- The test table expects `ToUsers` to be `["root"]` for the merge request. That is the list after `cleanWebhookHandlers`; before the clean-up the model has two entries. For the same reason the scenario lemmas say nothing about `ToUsers`.
- `anyEventLabelInSubs`, `handleMention`, `normalizeNamespacedProject` and the subscription capability flags are abstract. Their code is not part of this model. The model assumes no label syntax, label matching or mention parsing.
- `GetUsernameByID`, `GetUserURL` and `GetSubscribedChannelsForProject` are total functions of `Collaborators`. In this source the store lookup returns no error, so the model has no store error either.
- `context.Context` is dropped. It is only passed to the store lookup.
- The error returns of the channel steps (`note.go:19-22`, `104-107`) are never non-nil, because both channel steps always return a nil error. `ChannelOutput` has no error, so those branches are not modelled.
- The DM steps always return a nil error, so the failure path exists only in `Note.Orchestrate`. In the source that path returns nil warnings; the model returns an empty list.
- Go's nil-versus-empty slice distinction is not modelled. The DM record's nil `ToChannels` is an empty sequence.
- Integer rendering (`%v`, `%d`) is the abstract `intToString`.
- Labels are represented by their titles.
- JSON decoding of the events and the test harness are not modelled.
- The scenario text lemmas write each expected text as literal pieces split where the template's fields begin and end. Read in order, the pieces spell the test's string.
- Dispatch is deterministic here: every member is a pure function, so calling it twice gives the same result. There is no separate idempotence lemma.

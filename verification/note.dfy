/**
 * The comment handlers: an issue or merge-request comment becomes a direct
 * message to the item's people, an optional mention message, and at most one
 * broadcast to the subscribed channels, plus the subscriptions' warnings.
 */
module Note {
  import opened Wrappers
  import opened Webhook
  import opened Messages
  import opened Subscriptions

  /** What a channel step returns: zero or one broadcast record and the warnings. */
  datatype ChannelOutput = ChannelOutput(records: seq<Notification>, warnings: seq<string>)

  /** The usernames of a list of user ids, position by position. */
  function Usernames(usernameById: int -> string, ids: seq<int>): (r: seq<string>)
    ensures |r| == |ids|
    ensures forall i :: 0 <= i < |ids| ==> r[i] == usernameById(ids[i])
    decreases |ids|
  {
    if |ids| == 0 then [] else Usernames(usernameById, ids[..|ids| - 1]) + [usernameById(ids[|ids| - 1])]
  }

  /**
   * The direct-message recipients of an issue comment: every assignee, in
   * order and with repeats, then the author.
   */
  function IssueRecipients(env: Collaborators, issue: Issue): (r: seq<string>)
    ensures |r| == |issue.assigneeIds| + 1
    ensures forall i :: 0 <= i < |issue.assigneeIds| ==> r[i] == env.usernameById(issue.assigneeIds[i])
    ensures r[|r| - 1] == env.usernameById(issue.authorId)
  {
    Usernames(env.usernameById, issue.assigneeIds) + [env.usernameById(issue.authorId)]
  }

  /** The direct-message recipients of a merge-request comment: the assignee, then the author. */
  function MergeRequestRecipients(env: Collaborators, mr: MergeRequest): (r: seq<string>)
    ensures |r| == 2 && r[0] == env.usernameById(mr.assigneeId) && r[1] == env.usernameById(mr.authorId)
  {
    [env.usernameById(mr.assigneeId), env.usernameById(mr.authorId)]
  }

  /** The direct-message record followed by the mention record, when there is one. */
  function WithMention(dm: Notification, mention: Option<Notification>): (r: seq<Notification>)
    ensures |r| == if mention.Some? then 2 else 1
    ensures r[0] == dm
    ensures mention.Some? ==> r[1] == mention.value
  {
    if mention.Some? then [dm, mention.value] else [dm]
  }

  /** The mention detector's answer, asked with the sender, the path, the `%d` issue number, the link and the body. */
  function IssueMention(env: Collaborators, e: IssueCommentEvent): Option<Notification>
  {
    env.handleMention(MentionDetails(e.user, e.project.pathWithNamespace, env.intToString(e.issue.iid),
                                     e.comment.url, e.comment.description))
  }

  /** The same question for a merge-request comment, with the merge request's number. */
  function MergeRequestMention(env: Collaborators, e: MergeCommentEvent): Option<Notification>
  {
    env.handleMention(MentionDetails(e.user, e.project.pathWithNamespace, env.intToString(e.mergeRequest.iid),
                                     e.comment.url, e.comment.description))
  }

  /**
   * The mention detector sees only the sender, the repository path, the issue
   * number, and the comment's link and body: the issue's title, labels,
   * people and the project's URL and visibility cannot change its answer.
   */
  lemma IssueMentionScope(env: Collaborators, e: IssueCommentEvent, f: IssueCommentEvent)
    requires e.user == f.user && e.project.pathWithNamespace == f.project.pathWithNamespace
    requires e.issue.iid == f.issue.iid && e.comment == f.comment
    ensures IssueMention(env, e) == IssueMention(env, f)
  {
  }

  /** The same for a merge-request comment, with the merge request's number. */
  lemma MergeRequestMentionScope(env: Collaborators, e: MergeCommentEvent, f: MergeCommentEvent)
    requires e.user == f.user && e.project.pathWithNamespace == f.project.pathWithNamespace
    requires e.mergeRequest.iid == f.mergeRequest.iid && e.comment == f.comment
    ensures MergeRequestMention(env, e) == MergeRequestMention(env, f)
  {
  }

  function IssueDmMessage(env: Collaborators, e: IssueCommentEvent): string
  {
    DmMessage(e.user, env.userUrl(e.user), IssueNoun, e.project.pathWithNamespace,
              env.intToString(e.issue.iid), e.comment.url)
  }

  function MergeRequestDmMessage(env: Collaborators, e: MergeCommentEvent): string
  {
    DmMessage(e.user, env.userUrl(e.user), MergeRequestNoun, e.project.pathWithNamespace,
              env.intToString(e.mergeRequest.iid), e.comment.url)
  }

  function IssueChannelMessage(env: Collaborators, e: IssueCommentEvent): string
  {
    ChannelMessage(e.project.pathWithNamespace, e.project.webUrl, e.user, env.userUrl(e.user),
                   env.intToString(e.issue.iid), e.issue.title, e.comment.url, e.comment.description)
  }

  function MergeRequestChannelMessage(env: Collaborators, e: MergeCommentEvent): string
  {
    ChannelMessage(e.project.pathWithNamespace, e.project.webUrl, e.user, env.userUrl(e.user),
                   env.intToString(e.mergeRequest.iid), e.mergeRequest.title, e.comment.url, e.comment.description)
  }

  /**
   * The direct-message step for an issue comment. It never fails: one record
   * from the sender to the assignees and the author, with no channel, then the
   * mention record if the mention detector produced one.
   */
  function DmIssueComment(env: Collaborators, e: IssueCommentEvent): (r: Result<seq<Notification>, Error>)
    ensures r.Success?
    ensures |r.value| == if IssueMention(env, e).Some? then 2 else 1
    ensures r.value[0].from == e.user && r.value[0].toChannels == []
    ensures r.value[0].message == IssueDmMessage(env, e)
    ensures |r.value[0].toUsers| == |e.issue.assigneeIds| + 1
    ensures forall i :: 0 <= i < |e.issue.assigneeIds| ==> r.value[0].toUsers[i] == env.usernameById(e.issue.assigneeIds[i])
    ensures r.value[0].toUsers[|e.issue.assigneeIds|] == env.usernameById(e.issue.authorId)
    ensures IssueMention(env, e).Some? ==> r.value[1] == IssueMention(env, e).value
  {
    var dm := Notification(IssueDmMessage(env, e), IssueRecipients(env, e.issue), [], e.user);
    Success(WithMention(dm, IssueMention(env, e)))
  }

  /**
   * The direct-message step for a merge-request comment. It never fails: one
   * record from the sender to exactly the assignee and then the author, with no
   * channel, then the mention record if the mention detector produced one.
   */
  function DmMergeRequestComment(env: Collaborators, e: MergeCommentEvent): (r: Result<seq<Notification>, Error>)
    ensures r.Success?
    ensures |r.value| == if MergeRequestMention(env, e).Some? then 2 else 1
    ensures r.value[0].from == e.user && r.value[0].toChannels == []
    ensures r.value[0].message == MergeRequestDmMessage(env, e)
    ensures r.value[0].toUsers == [env.usernameById(e.mergeRequest.assigneeId), env.usernameById(e.mergeRequest.authorId)]
    ensures MergeRequestMention(env, e).Some? ==> r.value[1] == MergeRequestMention(env, e).value
  {
    var dm := Notification(MergeRequestDmMessage(env, e), MergeRequestRecipients(env, e.mergeRequest), [], e.user);
    Success(WithMention(dm, MergeRequestMention(env, e)))
  }

  /** The broadcast step shared by both kinds: one record if any channel was kept, none otherwise. */
  function Broadcast(sender: string, message: string, fanout: Fanout): (r: ChannelOutput)
    ensures |r.records| == if |fanout.channels| > 0 then 1 else 0
    ensures |r.records| == 1 ==> r.records[0] == Notification(message, [], fanout.channels, sender)
    ensures r.warnings == fanout.warnings
  {
    ChannelOutput(if |fanout.channels| > 0 then [Notification(message, [], fanout.channels, sender)] else [],
                  fanout.warnings)
  }

  function IssueScreen(env: Collaborators, e: IssueCommentEvent): Subscription -> Verdict
  {
    s => Screen(s, env.issueComments, e.issue.labels, env.anyEventLabelInSubs)
  }

  function MergeRequestScreen(env: Collaborators, e: MergeCommentEvent): Subscription -> Verdict
  {
    s => Screen(s, env.mergeRequestComments, e.mergeRequest.labels, env.anyEventLabelInSubs)
  }

  /**
   * The channel step for an issue comment. At most one record; there is one
   * exactly when some subscription has the issue-comment capability and passes
   * the label check. It goes from the sender to no user and to the kept
   * channels, in subscription order.
   */
  function ChannelIssueComment(env: Collaborators, e: IssueCommentEvent): (r: ChannelOutput)
    ensures var subs := SubscriptionsFor(env, e.project);
      |r.records| == 1 <==>
        exists i :: 0 <= i < |subs| && env.issueComments(subs[i]) && env.anyEventLabelInSubs(subs[i], e.issue.labels).ok
    ensures |r.records| <= 1
    ensures |r.records| == 1 ==>
      && r.records[0].from == e.user
      && r.records[0].toUsers == []
      && r.records[0].toChannels == Filter(SubscriptionsFor(env, e.project), IssueScreen(env, e)).channels
      && r.records[0].message == IssueChannelMessage(env, e)
    ensures r.warnings == Filter(SubscriptionsFor(env, e.project), IssueScreen(env, e)).warnings
  {
    var subs := SubscriptionsFor(env, e.project);
    var fanout := Filter(subs, IssueScreen(env, e));
    FilterNonEmptyIff(subs, IssueScreen(env, e));
    Broadcast(e.user, IssueChannelMessage(env, e), fanout)
  }

  /**
   * The channel step for a merge-request comment, the same as for issues with
   * the merge-request-comment capability and the merge request's labels.
   */
  function ChannelMergeRequestComment(env: Collaborators, e: MergeCommentEvent): (r: ChannelOutput)
    ensures var subs := SubscriptionsFor(env, e.project);
      |r.records| == 1 <==>
        exists i :: 0 <= i < |subs| && env.mergeRequestComments(subs[i]) && env.anyEventLabelInSubs(subs[i], e.mergeRequest.labels).ok
    ensures |r.records| <= 1
    ensures |r.records| == 1 ==>
      && r.records[0].from == e.user
      && r.records[0].toUsers == []
      && r.records[0].toChannels == Filter(SubscriptionsFor(env, e.project), MergeRequestScreen(env, e)).channels
      && r.records[0].message == MergeRequestChannelMessage(env, e)
    ensures r.warnings == Filter(SubscriptionsFor(env, e.project), MergeRequestScreen(env, e)).warnings
  {
    var subs := SubscriptionsFor(env, e.project);
    var fanout := Filter(subs, MergeRequestScreen(env, e));
    FilterNonEmptyIff(subs, MergeRequestScreen(env, e));
    Broadcast(e.user, MergeRequestChannelMessage(env, e), fanout)
  }

  /**
   * The shared shape of both handlers: a failed direct-message step aborts
   * with no records and no warnings; otherwise the direct-message records and
   * then the channel records are cleaned up and returned with the warnings.
   */
  function Orchestrate(dm: Result<seq<Notification>, Error>, channel: ChannelOutput,
                       clean: seq<Notification> -> seq<Notification>): (h: Handled)
    ensures dm.Failure? ==> h.outcome == Failure(dm.error) && h.warnings == []
    ensures dm.Success? ==> h.outcome == Success(clean(dm.value + channel.records)) && h.warnings == channel.warnings
  {
    match dm
    case Failure(err) => Handled(Failure(err), [])
    case Success(records) => Handled(Success(clean(records + channel.records)), channel.warnings)
  }

  /** The records of an issue comment in the order they are handed to the clean-up. */
  function IssueNotifications(env: Collaborators, e: IssueCommentEvent): (r: seq<Notification>)
    ensures var mentions := if IssueMention(env, e).Some? then 1 else 0;
      var channels := Filter(SubscriptionsFor(env, e.project), IssueScreen(env, e)).channels;
      && |r| == 1 + mentions + (if |channels| > 0 then 1 else 0)
      && r[0] == Notification(IssueDmMessage(env, e), IssueRecipients(env, e.issue), [], e.user)
      && (mentions == 1 ==> r[1] == IssueMention(env, e).value)
      && (|channels| > 0 ==> r[|r| - 1] == Notification(IssueChannelMessage(env, e), [], channels, e.user))
  {
    DmIssueComment(env, e).value + ChannelIssueComment(env, e).records
  }

  /** The records of a merge-request comment in the order they are handed to the clean-up. */
  function MergeRequestNotifications(env: Collaborators, e: MergeCommentEvent): (r: seq<Notification>)
    ensures var mentions := if MergeRequestMention(env, e).Some? then 1 else 0;
      var channels := Filter(SubscriptionsFor(env, e.project), MergeRequestScreen(env, e)).channels;
      && |r| == 1 + mentions + (if |channels| > 0 then 1 else 0)
      && r[0] == Notification(MergeRequestDmMessage(env, e), MergeRequestRecipients(env, e.mergeRequest), [], e.user)
      && (mentions == 1 ==> r[1] == MergeRequestMention(env, e).value)
      && (|channels| > 0 ==> r[|r| - 1] == Notification(MergeRequestChannelMessage(env, e), [], channels, e.user))
  {
    DmMergeRequestComment(env, e).value + ChannelMergeRequestComment(env, e).records
  }

  /**
   * Handling an issue comment never fails: the cleaned-up record list and the
   * warnings of the subscriptions that have the capability but fail the label check.
   */
  function HandleIssueComment(env: Collaborators, e: IssueCommentEvent): (h: Handled)
    ensures h.outcome == Success(env.cleanWebhookHandlers(IssueNotifications(env, e)))
    ensures h.warnings == Warned(SubscriptionsFor(env, e.project), IssueScreen(env, e))
  {
    FilterIsReference(SubscriptionsFor(env, e.project), IssueScreen(env, e));
    Orchestrate(DmIssueComment(env, e), ChannelIssueComment(env, e), env.cleanWebhookHandlers)
  }

  /** Handling a merge-request comment never fails, as for issues. */
  function HandleMergeRequestComment(env: Collaborators, e: MergeCommentEvent): (h: Handled)
    ensures h.outcome == Success(env.cleanWebhookHandlers(MergeRequestNotifications(env, e)))
    ensures h.warnings == Warned(SubscriptionsFor(env, e.project), MergeRequestScreen(env, e))
  {
    FilterIsReference(SubscriptionsFor(env, e.project), MergeRequestScreen(env, e));
    Orchestrate(DmMergeRequestComment(env, e), ChannelMergeRequestComment(env, e), env.cleanWebhookHandlers)
  }
  /**
   * A subscription without the issue-comment capability adds no channel and no
   * warning to an issue comment's fan-out, wherever it stands and whatever the
   * issue's labels or the label check would say.
   */
  lemma IssueIncapableIgnored(env: Collaborators, e: IssueCommentEvent,
                              a: seq<Subscription>, s: Subscription, b: seq<Subscription>)
    requires !env.issueComments(s)
    ensures Filter(a + [s] + b, IssueScreen(env, e)) == Filter(a + b, IssueScreen(env, e))
  {
    SkippedIsInvisible(a, s, b, IssueScreen(env, e));
  }

  /** The same for a merge-request comment and the merge-request-comment capability. */
  lemma MergeRequestIncapableIgnored(env: Collaborators, e: MergeCommentEvent,
                                     a: seq<Subscription>, s: Subscription, b: seq<Subscription>)
    requires !env.mergeRequestComments(s)
    ensures Filter(a + [s] + b, MergeRequestScreen(env, e)) == Filter(a + b, MergeRequestScreen(env, e))
  {
    SkippedIsInvisible(a, s, b, MergeRequestScreen(env, e));
  }

  /**
   * The channels of an issue comment's broadcast are exactly the channel ids of
   * the subscriptions that have the capability and pass the label check.
   */
  lemma IssueChannelIff(env: Collaborators, e: IssueCommentEvent, c: string)
    ensures var subs := SubscriptionsFor(env, e.project);
      c in Filter(subs, IssueScreen(env, e)).channels <==>
        exists i :: 0 <= i < |subs| && env.issueComments(subs[i])
          && env.anyEventLabelInSubs(subs[i], e.issue.labels).ok && subs[i].channelId == c
  {
    var subs := SubscriptionsFor(env, e.project);
    ChannelIffAccepted(subs, IssueScreen(env, e), c);
  }

  /** The same for a merge-request comment. */
  lemma MergeRequestChannelIff(env: Collaborators, e: MergeCommentEvent, c: string)
    ensures var subs := SubscriptionsFor(env, e.project);
      c in Filter(subs, MergeRequestScreen(env, e)).channels <==>
        exists i :: 0 <= i < |subs| && env.mergeRequestComments(subs[i])
          && env.anyEventLabelInSubs(subs[i], e.mergeRequest.labels).ok && subs[i].channelId == c
  {
    var subs := SubscriptionsFor(env, e.project);
    ChannelIffAccepted(subs, MergeRequestScreen(env, e), c);
  }
}

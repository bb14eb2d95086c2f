/**
 * The data the comment handlers read and produce: the GitLab comment events,
 * the channel subscriptions, the notification records, and the collaborators
 * whose code lies outside the handlers.
 */
module Webhook {
  import opened Wrappers

  datatype Visibility = Private | Internal | Public

  /** The repository the comment was made in. */
  datatype Project = Project(pathWithNamespace: string, webUrl: string, visibility: Visibility)

  /** The comment itself: its permalink and its body text. */
  datatype Comment = Comment(url: string, description: string)

  /** The commented-on issue; labels are represented by their titles. */
  datatype Issue = Issue(iid: int, title: string, authorId: int, assigneeIds: seq<int>, labels: seq<string>)

  /** The commented-on merge request, which has a single assignee id. */
  datatype MergeRequest = MergeRequest(iid: int, title: string, authorId: int, assigneeId: int, labels: seq<string>)

  /** A comment on an issue; `user` is the username of the commenter. */
  datatype IssueCommentEvent = IssueCommentEvent(user: string, project: Project, comment: Comment, issue: Issue)

  /** A comment on a merge request; `user` is the username of the commenter. */
  datatype MergeCommentEvent = MergeCommentEvent(user: string, project: Project, comment: Comment, mergeRequest: MergeRequest)

  /** A channel's subscription to a repository, with its comma-separated feature string. */
  datatype Subscription = Subscription(channelId: string, creatorId: string, features: string, repository: string)

  /** One message to deliver (the source's HandleWebhook record). */
  datatype Notification = Notification(message: string, toUsers: seq<string>, toChannels: seq<string>, from: string)

  /** What the mention detector is told about a comment. */
  datatype MentionDetails = MentionDetails(senderUsername: string, pathWithNamespace: string, iid: string, url: string, body: string)

  /** The answer of the label check for one subscription: accepted or not, and a warning text. */
  datatype LabelCheck = LabelCheck(ok: bool, warning: string)

  datatype Error = Error(message: string)

  /** What a handler returns: the records (or the error that aborted dispatch) and the warnings. */
  datatype Handled = Handled(outcome: Result<seq<Notification>, Error>, warnings: seq<string>)

  /**
   * The collaborators whose code is not part of this model, as functions:
   * the user directory and subscription store of the GitLab retriever, the
   * namespace normalizer, a subscription's feature flags, the label check, the
   * mention detector, the final clean-up of the record list, and the decimal
   * rendering of an integer.
   */
  datatype Collaborators = Collaborators(
    usernameById: int -> string,
    userUrl: string -> string,
    subscribedChannels: (string, string, bool) -> seq<Subscription>,
    normalizeNamespacedProject: string -> (string, string),
    issueComments: Subscription -> bool,
    mergeRequestComments: Subscription -> bool,
    anyEventLabelInSubs: (Subscription, seq<string>) -> LabelCheck,
    handleMention: MentionDetails -> Option<Notification>,
    cleanWebhookHandlers: seq<Notification> -> seq<Notification>,
    intToString: int -> string)

  /** The subscriptions the store returns for a project: looked up by its normalized path and public flag. */
  function SubscriptionsFor(env: Collaborators, project: Project): seq<Subscription>
  {
    var (namespace, name) := env.normalizeNamespacedProject(project.pathWithNamespace);
    env.subscribedChannels(namespace, name, project.visibility == Public)
  }

  /**
   * The store is asked only about the path and whether the project is public:
   * two projects that agree on those get the same subscriptions, so internal
   * and private projects share one scope and the web URL plays no part.
   */
  lemma SubscriptionScope(env: Collaborators, p: Project, q: Project)
    requires p.pathWithNamespace == q.pathWithNamespace
    requires (p.visibility == Public) == (q.visibility == Public)
    ensures SubscriptionsFor(env, p) == SubscriptionsFor(env, q)
  {
  }
}

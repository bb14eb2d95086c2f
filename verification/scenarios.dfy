/**
 * The scenarios of the handlers' test table, stated for every set of
 * collaborators whose profile URL and number rendering answer the way the
 * test's fake retriever and `%v` do, and whose subscription store, capability
 * flags, label check and mention detector give the answers each lemma
 * requires (the test gets those from the package's own functions). They speak
 * of the records handed to the clean-up and of the warnings, which the
 * clean-up does not touch.
 */
module Scenarios {
  import opened Wrappers
  import opened Webhook
  import opened Messages
  import opened Subscriptions
  import opened Note

  const QuoteWarning: string := "each label must be wrapped in quotes, e.g. label:\"bug\""

  const SenderUrl: string := "http://my.gitlab.com/manland"
  const WebUrl: string := "http://localhost:3000/manland/webhook"
  const IssueNoteUrl: string := "http://localhost:3000/manland/webhook/issues/1#note_997"
  const MergeRequestNoteUrl: string := "http://localhost:3000/manland/webhook/merge_requests/6#note_999"
  const SubgroupPath: string := "manland/subgroup/webhook"
  const SubgroupWebUrl: string := "http://localhost:3000/manland/subgroup/webhook"
  const SubgroupIssueNoteUrl: string := "http://localhost:3000/manland/subgroup/webhook/issues/1#note_997"

  /** The issue fixture: comment "coucou3" by manland on issue 1 of manland/webhook. */
  function IssueEvent(issue: Issue): IssueCommentEvent
  {
    IssueCommentEvent("manland", Project("manland/webhook", WebUrl, Public), Comment(IssueNoteUrl, "coucou3"), issue)
  }

  /** The issue fixture with the repository moved into a subgroup. */
  function SubgroupIssueEvent(issue: Issue): IssueCommentEvent
  {
    IssueCommentEvent("manland", Project(SubgroupPath, SubgroupWebUrl, Public), Comment(SubgroupIssueNoteUrl, "coucou3"), issue)
  }

  /** The merge-request fixture: comment "coucou" by manland on merge request 6 of manland/webhook. */
  function MergeEvent(mr: MergeRequest): MergeCommentEvent
  {
    MergeCommentEvent("manland", Project("manland/webhook", WebUrl, Public), Comment(MergeRequestNoteUrl, "coucou"), mr)
  }

  /** The fake retriever's profile URL and the rendering of the item numbers used by the fixtures. */
  predicate FixtureLookups(env: Collaborators)
  {
    env.userUrl("manland") == SenderUrl && env.intToString(1) == "1" && env.intToString(6) == "6"
  }

  /*
   * The expected texts of the test table below are written as the pieces
   * between the template's fields; read left to right, the pieces spell the
   * test's expected string character for character.
   */

  /** The issue fixture renders to the test table's expected direct-message text. */
  lemma IssueDmText()
    ensures DmMessage("manland", SenderUrl, IssueNoun, "manland/webhook", "1", IssueNoteUrl)
         == "[manland](" + SenderUrl + ")" + " commented on your " + "issue" + " "
          + ("[manland/webhook#1](" + IssueNoteUrl + ")")
  {
    assert "[" + "manland" + "](" == "[manland](";
    assert "[" + ("manland/webhook" + "#" + "1") + "](" == "[manland/webhook#1](";
  }

  /** The issue fixture renders to the test table's expected channel text. */
  lemma IssueChannelText()
    ensures ChannelMessage("manland/webhook", WebUrl, "manland", SenderUrl, "1", "test new issue", IssueNoteUrl, "coucou3")
         == "[manland/webhook](" + WebUrl + ")" + " New comment by " + ("[manland](" + SenderUrl + ")") + " on "
          + ("[#1 test new issue](" + IssueNoteUrl + ")") + ":\n\n" + "coucou3"
  {
    assert "[" + "manland/webhook" + "](" == "[manland/webhook](";
    assert "[" + ("#" + "1" + " " + "test new issue") + "](" == "[#1 test new issue](";
  }

  /** The subgroup fixture renders to the test table's expected direct-message text. */
  lemma SubgroupDmText()
    ensures DmMessage("manland", SenderUrl, IssueNoun, SubgroupPath, "1", SubgroupIssueNoteUrl)
         == "[manland](" + SenderUrl + ")" + " commented on your " + "issue" + " "
          + ("[manland/subgroup/webhook#1](" + SubgroupIssueNoteUrl + ")")
  {
    assert "[" + "manland" + "](" == "[manland](";
    assert "[" + (SubgroupPath + "#" + "1") + "](" == "[manland/subgroup/webhook#1](";
  }

  /** The subgroup fixture renders to the test table's expected channel text. */
  lemma SubgroupChannelText()
    ensures ChannelMessage(SubgroupPath, SubgroupWebUrl, "manland", SenderUrl, "1", "test new issue", SubgroupIssueNoteUrl, "coucou3")
         == "[manland/subgroup/webhook](" + SubgroupWebUrl + ")" + " New comment by " + ("[manland](" + SenderUrl + ")") + " on "
          + ("[#1 test new issue](" + SubgroupIssueNoteUrl + ")") + ":\n\n" + "coucou3"
  {
    assert "[" + SubgroupPath + "](" == "[manland/subgroup/webhook](";
    assert "[" + ("#" + "1" + " " + "test new issue") + "](" == "[#1 test new issue](";
  }

  /** The merge-request fixture renders to the test table's expected direct-message text. */
  lemma MergeRequestDmText()
    ensures DmMessage("manland", SenderUrl, MergeRequestNoun, "manland/webhook", "6", MergeRequestNoteUrl)
         == "[manland](" + SenderUrl + ")" + " commented on your " + "merge request" + " "
          + ("[manland/webhook#6](" + MergeRequestNoteUrl + ")")
  {
    assert "[" + "manland" + "](" == "[manland](";
    assert "[" + ("manland/webhook" + "#" + "6") + "](" == "[manland/webhook#6](";
  }

  /** The merge-request fixture renders to the test table's expected channel text. */
  lemma MergeRequestChannelText()
    ensures ChannelMessage("manland/webhook", WebUrl, "manland", SenderUrl, "6", "Update README.md", MergeRequestNoteUrl, "coucou")
         == "[manland/webhook](" + WebUrl + ")" + " New comment by " + ("[manland](" + SenderUrl + ")") + " on "
          + ("[#6 Update README.md](" + MergeRequestNoteUrl + ")") + ":\n\n" + "coucou"
  {
    assert "[" + "manland/webhook" + "](" == "[manland/webhook](";
    assert "[" + ("#" + "6" + " " + "Update README.md") + "](" == "[#6 Update README.md](";
  }

  /**
   * "manland comment issue of root": one subscription of channel1 with the
   * issue-comment capability gives the direct message and then the broadcast
   * to channel1, with the test's two texts, and no warning.
   */
  lemma IssueCommentScenario(env: Collaborators, issue: Issue)
    requires FixtureLookups(env)
    requires issue.iid == 1 && issue.title == "test new issue"
    requires var e := IssueEvent(issue);
      var sub := Subscription("channel1", "1", "issue_comments", "manland/webhook");
      && IssueMention(env, e) == None
      && SubscriptionsFor(env, e.project) == [sub]
      && env.issueComments(sub)
      && env.anyEventLabelInSubs(sub, issue.labels).ok
    ensures var n := IssueNotifications(env, IssueEvent(issue));
      && |n| == 2
      && n[0].from == "manland" && n[0].toChannels == []
      && n[0].message == "[manland](" + SenderUrl + ")" + " commented on your " + "issue" + " "
                         + ("[manland/webhook#1](" + IssueNoteUrl + ")")
      && n[1].from == "manland" && n[1].toUsers == [] && n[1].toChannels == ["channel1"]
      && n[1].message == "[manland/webhook](" + WebUrl + ")" + " New comment by " + ("[manland](" + SenderUrl + ")") + " on "
                         + ("[#1 test new issue](" + IssueNoteUrl + ")") + ":\n\n" + "coucou3"
    ensures HandleIssueComment(env, IssueEvent(issue)).warnings == []
  {
    IssueDmText();
    IssueChannelText();
  }

  /**
   * "manland comment issue of root (subgroup)": the repository path has three
   * segments; the same single subscription still gives the direct message and
   * then the broadcast to channel1, with the test's texts, and no warning.
   */
  lemma SubgroupIssueCommentScenario(env: Collaborators, issue: Issue)
    requires FixtureLookups(env)
    requires issue.iid == 1 && issue.title == "test new issue"
    requires var e := SubgroupIssueEvent(issue);
      var sub := Subscription("channel1", "1", "issue_comments", SubgroupPath);
      && IssueMention(env, e) == None
      && SubscriptionsFor(env, e.project) == [sub]
      && env.issueComments(sub)
      && env.anyEventLabelInSubs(sub, issue.labels).ok
    ensures var n := IssueNotifications(env, SubgroupIssueEvent(issue));
      && |n| == 2
      && n[0].from == "manland" && n[0].toChannels == []
      && n[0].message == "[manland](" + SenderUrl + ")" + " commented on your " + "issue" + " "
                         + ("[manland/subgroup/webhook#1](" + SubgroupIssueNoteUrl + ")")
      && n[1].from == "manland" && n[1].toUsers == [] && n[1].toChannels == ["channel1"]
      && n[1].message == "[manland/subgroup/webhook](" + SubgroupWebUrl + ")" + " New comment by " + ("[manland](" + SenderUrl + ")") + " on "
                         + ("[#1 test new issue](" + SubgroupIssueNoteUrl + ")") + ":\n\n" + "coucou3"
    ensures HandleIssueComment(env, SubgroupIssueEvent(issue)).warnings == []
  {
    SubgroupDmText();
    SubgroupChannelText();
  }

  /**
   * "manland comment merge request of root": the same with the
   * merge-request-comment capability and merge request 6.
   */
  lemma MergeRequestCommentScenario(env: Collaborators, mr: MergeRequest)
    requires FixtureLookups(env)
    requires mr.iid == 6 && mr.title == "Update README.md"
    requires var e := MergeEvent(mr);
      var sub := Subscription("channel1", "1", "merge_request_comments", "manland/webhook");
      && MergeRequestMention(env, e) == None
      && SubscriptionsFor(env, e.project) == [sub]
      && env.mergeRequestComments(sub)
      && env.anyEventLabelInSubs(sub, mr.labels).ok
    ensures var n := MergeRequestNotifications(env, MergeEvent(mr));
      && |n| == 2
      && n[0].from == "manland" && n[0].toChannels == []
      && n[0].message == "[manland](" + SenderUrl + ")" + " commented on your " + "merge request" + " "
                         + ("[manland/webhook#6](" + MergeRequestNoteUrl + ")")
      && n[1].from == "manland" && n[1].toUsers == [] && n[1].toChannels == ["channel1"]
      && n[1].message == "[manland/webhook](" + WebUrl + ")" + " New comment by " + ("[manland](" + SenderUrl + ")") + " on "
                         + ("[#6 Update README.md](" + MergeRequestNoteUrl + ")") + ":\n\n" + "coucou"
    ensures HandleMergeRequestComment(env, MergeEvent(mr)).warnings == []
  {
    MergeRequestDmText();
    MergeRequestChannelText();
  }

  /**
   * "with subscription label warning": a subscription whose feature string is
   * `issue_comments,label:` is rejected by the label check with the quoting
   * warning, so only the direct message is produced and the warning is returned.
   */
  lemma IssueLabelWarningScenario(env: Collaborators, issue: Issue)
    requires FixtureLookups(env)
    requires issue.iid == 1
    requires var e := SubgroupIssueEvent(issue);
      var sub := Subscription("channel1", "1", "issue_comments,label:", SubgroupPath);
      && IssueMention(env, e) == None
      && SubscriptionsFor(env, e.project) == [sub]
      && env.issueComments(sub)
      && env.anyEventLabelInSubs(sub, issue.labels) == LabelCheck(false, QuoteWarning)
    ensures var n := IssueNotifications(env, SubgroupIssueEvent(issue));
      && |n| == 1 && n[0].toChannels == [] && n[0].from == "manland"
      && n[0].message == "[manland](" + SenderUrl + ")" + " commented on your " + "issue" + " "
                         + ("[manland/subgroup/webhook#1](" + SubgroupIssueNoteUrl + ")")
    ensures HandleIssueComment(env, SubgroupIssueEvent(issue)).warnings == [QuoteWarning]
  {
    SubgroupDmText();
  }

  /** The merge-request variant of the label-warning scenario. */
  lemma MergeRequestLabelWarningScenario(env: Collaborators, mr: MergeRequest)
    requires FixtureLookups(env)
    requires mr.iid == 6
    requires var e := MergeEvent(mr);
      var sub := Subscription("channel1", "1", "merge_request_comments,label:", "manland/webhook");
      && MergeRequestMention(env, e) == None
      && SubscriptionsFor(env, e.project) == [sub]
      && env.mergeRequestComments(sub)
      && env.anyEventLabelInSubs(sub, mr.labels) == LabelCheck(false, QuoteWarning)
    ensures var n := MergeRequestNotifications(env, MergeEvent(mr));
      && |n| == 1 && n[0].toChannels == [] && n[0].from == "manland"
      && n[0].message == "[manland](" + SenderUrl + ")" + " commented on your " + "merge request" + " "
                         + ("[manland/webhook#6](" + MergeRequestNoteUrl + ")")
    ensures HandleMergeRequestComment(env, MergeEvent(mr)).warnings == [QuoteWarning]
  {
    MergeRequestDmText();
  }

  /**
   * A well-formed label filter that matches none of the merge request's labels
   * rejects the subscription with an empty warning: no broadcast and no warning.
   */
  lemma MergeRequestUnmatchedLabelScenario(env: Collaborators, mr: MergeRequest, sub: Subscription)
    requires var e := MergeEvent(mr);
      && SubscriptionsFor(env, e.project) == [sub]
      && env.mergeRequestComments(sub)
      && env.anyEventLabelInSubs(sub, mr.labels) == LabelCheck(false, "")
    ensures var e := MergeEvent(mr);
      && |MergeRequestNotifications(env, e)| == (if MergeRequestMention(env, e).Some? then 2 else 1)
      && HandleMergeRequestComment(env, e).warnings == []
  {
  }
}

/** The two message templates of the comment handlers, as Markdown strings. */
module Messages {

  /** A Markdown link `[text](url)`. */
  function Link(text: string, url: string): string
  {
    "[" + text + "](" + url + ")"
  }

  const IssueNoun: string := "issue"
  const MergeRequestNoun: string := "merge request"

  /**
   * The direct-message text: the sender's profile link, what was commented on
   * (`noun`), and a link to the comment labelled `path#iid`.
   */
  function DmMessage(sender: string, senderUrl: string, noun: string, path: string, iid: string, commentUrl: string): (m: string)
    ensures |m| == |sender| + |senderUrl| + |noun| + |path| + |iid| + |commentUrl| + 29
  {
    Link(sender, senderUrl) + " commented on your " + noun + " " + Link(path + "#" + iid, commentUrl)
  }

  /**
   * The channel broadcast text: the repository link, the sender's profile link,
   * a link to the comment labelled `#iid title`, then a blank line and the body.
   */
  function ChannelMessage(path: string, webUrl: string, sender: string, senderUrl: string,
                          iid: string, title: string, commentUrl: string, body: string): (m: string)
    ensures |m| == |path| + |webUrl| + |sender| + |senderUrl| + |iid| + |title| + |commentUrl| + |body| + 37
  {
    Link(path, webUrl) + " New comment by " + Link(sender, senderUrl)
      + " on " + Link("#" + iid + " " + title, commentUrl) + ":\n\n" + body
  }

  /** The direct message opens with the sender's link, so its reader sees who commented. */
  lemma DmMessageOpensWithSender(sender: string, senderUrl: string, noun: string, path: string, iid: string, commentUrl: string)
    ensures var m := DmMessage(sender, senderUrl, noun, path, iid, commentUrl);
      |m| > |sender| + 1 && m[0] == '[' && m[1..|sender| + 1] == sender && m[|sender| + 1] == ']'
  {
  }

  /**
   * An issue message and a merge-request message never coincide, whatever the
   * other fields: the text after the sender's link names the kind of item.
   */
  lemma DmMessageNamesKind(sender: string, senderUrl: string, path: string, iid: string, commentUrl: string)
    ensures DmMessage(sender, senderUrl, IssueNoun, path, iid, commentUrl)
         != DmMessage(sender, senderUrl, MergeRequestNoun, path, iid, commentUrl)
  {
  }

  /** The direct message ends with the link to the comment, labelled `path#iid`. */
  lemma DmMessageEndsWithReference(sender: string, senderUrl: string, noun: string, path: string, iid: string, commentUrl: string)
    ensures var m := DmMessage(sender, senderUrl, noun, path, iid, commentUrl);
      var ref := Link(path + "#" + iid, commentUrl);
      |m| >= |ref| && m[|m| - |ref|..] == ref
  {
    var head := Link(sender, senderUrl) + " commented on your " + noun + " ";
    assert DmMessage(sender, senderUrl, noun, path, iid, commentUrl) == head + Link(path + "#" + iid, commentUrl);
  }

  /** The channel message opens with the repository's link. */
  lemma ChannelMessageOpensWithRepository(path: string, webUrl: string, sender: string, senderUrl: string,
                                          iid: string, title: string, commentUrl: string, body: string)
    ensures var m := ChannelMessage(path, webUrl, sender, senderUrl, iid, title, commentUrl, body);
      var repo := Link(path, webUrl);
      |m| >= |repo| && m[..|repo|] == repo
  {
    var m := ChannelMessage(path, webUrl, sender, senderUrl, iid, title, commentUrl, body);
    var repo := Link(path, webUrl);
    var rest := " New comment by " + Link(sender, senderUrl) + " on " + Link("#" + iid + " " + title, commentUrl) + ":\n\n" + body;
    assert m == repo + rest;
  }

  /** The channel message ends with a blank line followed by the comment body, verbatim. */
  lemma ChannelMessageEndsWithBody(path: string, webUrl: string, sender: string, senderUrl: string,
                                   iid: string, title: string, commentUrl: string, body: string)
    ensures var m := ChannelMessage(path, webUrl, sender, senderUrl, iid, title, commentUrl, body);
      |m| >= |body| + 3
      && m[|m| - |body|..] == body
      && m[|m| - |body| - 3..|m| - |body|] == ":\n\n"
  {
  }
}

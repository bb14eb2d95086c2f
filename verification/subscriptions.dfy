/**
 * The subscription filter of the comment handlers: the loop that walks the
 * repository's subscriptions, keeps the channels of the ones that accept the
 * event and collects the label warnings of the ones that reject it.
 */
module Subscriptions {
  import opened Webhook

  /** What one iteration of the loop decides about one subscription. */
  datatype Verdict = Skip | Reject(warning: string) | Accept(channelId: string)

  /** The accumulated channels and warnings. */
  datatype Fanout = Fanout(channels: seq<string>, warnings: seq<string>)

  /**
   * One subscription against the event: skipped without a word when it lacks
   * the capability for the event kind, rejected with the label check's warning
   * when the label check fails, accepted with its channel otherwise.
   */
  function Screen(sub: Subscription, capable: Subscription -> bool, labels: seq<string>,
                  anyEventLabelInSubs: (Subscription, seq<string>) -> LabelCheck): (v: Verdict)
    ensures !capable(sub) ==> v == Skip
    ensures v.Accept? <==> capable(sub) && anyEventLabelInSubs(sub, labels).ok
    ensures v.Reject? <==> capable(sub) && !anyEventLabelInSubs(sub, labels).ok
    ensures v.Accept? ==> v.channelId == sub.channelId
    ensures v.Reject? ==> v.warning == anyEventLabelInSubs(sub, labels).warning
  {
    if !capable(sub) then Skip
    else
      var check := anyEventLabelInSubs(sub, labels);
      if !check.ok then Reject(check.warning) else Accept(sub.channelId)
  }

  /**
   * One iteration of the loop: an accepted subscription appends its channel,
   * a rejected one appends its warning unless that is empty, a skipped one
   * leaves the accumulator alone. Nothing already gathered is changed.
   */
  function Visit(acc: Fanout, v: Verdict): (r: Fanout)
    ensures v.Skip? ==> r == acc
    ensures v.Accept? ==> r.channels == acc.channels + [v.channelId] && r.warnings == acc.warnings
    ensures v.Reject? ==> (r.channels == acc.channels &&
                           r.warnings == acc.warnings + (if |v.warning| > 0 then [v.warning] else []))
  {
    match v
    case Skip => acc
    case Reject(w) => if |w| > 0 then Fanout(acc.channels, acc.warnings + [w]) else acc
    case Accept(c) => Fanout(acc.channels + [c], acc.warnings)
  }

  /** The loop over the subscriptions, in order, as a fold that appends at the end. */
  function Filter(subs: seq<Subscription>, screen: Subscription -> Verdict): (r: Fanout)
    ensures |r.channels| + |r.warnings| <= |subs|
    ensures forall w :: w in r.warnings ==> |w| > 0
    ensures forall c :: c in r.channels ==> exists i :: 0 <= i < |subs| && screen(subs[i]) == Accept(c)
    decreases |subs|
  {
    if |subs| == 0 then Fanout([], [])
    else
      var prefix := subs[..|subs| - 1];
      var r := Visit(Filter(prefix, screen), screen(subs[|subs| - 1]));
      assert forall i :: 0 <= i < |prefix| ==> subs[i] == prefix[i];
      r
  }

  /** Reference definition of the kept channels: head first, one per accepting subscription. */
  function Accepted(subs: seq<Subscription>, screen: Subscription -> Verdict): seq<string>
  {
    if |subs| == 0 then []
    else (if screen(subs[0]).Accept? then [screen(subs[0]).channelId] else []) + Accepted(subs[1..], screen)
  }

  /** Reference definition of the warnings: one per rejecting subscription whose warning is non-empty. */
  function Warned(subs: seq<Subscription>, screen: Subscription -> Verdict): seq<string>
  {
    if |subs| == 0 then []
    else (if screen(subs[0]).Reject? && |screen(subs[0]).warning| > 0 then [screen(subs[0]).warning] else [])
         + Warned(subs[1..], screen)
  }

  function Join(a: Fanout, b: Fanout): Fanout
  {
    Fanout(a.channels + b.channels, a.warnings + b.warnings)
  }

  /** The loop over two consecutive runs of subscriptions is the two loops' results, in order. */
  lemma {:induction false} FilterAppend(a: seq<Subscription>, b: seq<Subscription>, screen: Subscription -> Verdict)
    ensures Filter(a + b, screen) == Join(Filter(a, screen), Filter(b, screen))
    decreases |b|
  {
    if |b| == 0 {
      assert a + b == a;
    } else {
      var b' := b[..|b| - 1];
      var last := b[|b| - 1];
      assert (a + b)[..|a + b| - 1] == a + b';
      assert (a + b)[|a + b| - 1] == last;
      FilterAppend(a, b', screen);
    }
  }

  /**
   * A single subscription: an accepted one gives only its channel, a rejected
   * one gives only its warning when that is non-empty, a skipped one gives nothing.
   */
  lemma FilterSingle(s: Subscription, screen: Subscription -> Verdict)
    ensures screen(s).Accept? ==> Filter([s], screen) == Fanout([screen(s).channelId], [])
    ensures screen(s).Reject? ==> Filter([s], screen) == Fanout([], if |screen(s).warning| > 0 then [screen(s).warning] else [])
    ensures screen(s) == Skip ==> Filter([s], screen) == Fanout([], [])
  {
  }

  /** The loop agrees with the head-first reference definitions, channels and warnings alike. */
  lemma {:induction false} FilterIsReference(subs: seq<Subscription>, screen: Subscription -> Verdict)
    ensures Filter(subs, screen) == Fanout(Accepted(subs, screen), Warned(subs, screen))
    decreases |subs|
  {
    if |subs| > 0 {
      var head := Filter([subs[0]], screen);
      var tail := Filter(subs[1..], screen);
      assert subs == [subs[0]] + subs[1..];
      FilterAppend([subs[0]], subs[1..], screen);
      assert Filter(subs, screen) == Join(head, tail);
      FilterSingle(subs[0], screen);
      assert head.channels == if screen(subs[0]).Accept? then [screen(subs[0]).channelId] else [];
      assert head.warnings == if screen(subs[0]).Reject? && |screen(subs[0]).warning| > 0 then [screen(subs[0]).warning] else [];
      FilterIsReference(subs[1..], screen);
    }
  }

  /**
   * A skipped subscription contributes neither a channel nor a warning,
   * wherever it stands in the list.
   */
  lemma SkippedIsInvisible(a: seq<Subscription>, s: Subscription, b: seq<Subscription>, screen: Subscription -> Verdict)
    requires screen(s) == Skip
    ensures Filter(a + [s] + b, screen) == Filter(a + b, screen)
  {
    FilterAppend(a + [s], b, screen);
    FilterAppend(a, [s], screen);
    FilterSingle(s, screen);
    FilterAppend(a, b, screen);
  }

  /** A channel is kept exactly when some subscription accepts the event for it. */
  lemma {:induction false} ChannelIffAccepted(subs: seq<Subscription>, screen: Subscription -> Verdict, c: string)
    ensures c in Filter(subs, screen).channels <==> exists i :: 0 <= i < |subs| && screen(subs[i]) == Accept(c)
  {
    FilterIsReference(subs, screen);
    AcceptedMembership(subs, screen, c);
  }

  lemma {:induction false} AcceptedMembership(subs: seq<Subscription>, screen: Subscription -> Verdict, c: string)
    ensures c in Accepted(subs, screen) <==> exists i :: 0 <= i < |subs| && screen(subs[i]) == Accept(c)
    decreases |subs|
  {
    if |subs| > 0 {
      AcceptedMembership(subs[1..], screen, c);
      if screen(subs[0]) == Accept(c) {
        assert c in Accepted(subs, screen);
      }
      if exists i :: 0 <= i < |subs[1..]| && screen(subs[1..][i]) == Accept(c) {
        var i :| 0 <= i < |subs[1..]| && screen(subs[1..][i]) == Accept(c);
        assert screen(subs[i + 1]) == Accept(c);
      }
      if exists i :: 0 <= i < |subs| && screen(subs[i]) == Accept(c) {
        var i :| 0 <= i < |subs| && screen(subs[i]) == Accept(c);
        if i > 0 {
          assert screen(subs[1..][i - 1]) == Accept(c);
        }
      }
    }
  }

  /** The loop keeps at least one channel exactly when some subscription accepts the event. */
  lemma FilterNonEmptyIff(subs: seq<Subscription>, screen: Subscription -> Verdict)
    ensures |Filter(subs, screen).channels| > 0 <==> exists i :: 0 <= i < |subs| && screen(subs[i]).Accept?
  {
  }
}

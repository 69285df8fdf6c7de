/** A tweet as the handler holds it, and the display of tweets
    (tweet_handler.py:7-21 and 51-61). */
module Tweets {
  import opened Values
  import opened Text

  /** `Tweet`: the raw record from the service and whether it has been shown.
      Every tweet is created with `shown == false`. */
  datatype Tweet = Tweet(raw: Record, shown: bool)

  /** Attribute access `tweet.name`. The instance attributes `raw` and
      `shown` are found first; any other name falls through to a lookup in
      the raw record, and a missing key gives no value (Python's `None`). */
  function GetAttr(t: Tweet, name: string): (v: Option<Json>)
    ensures name == "shown" ==> v == Some(JBool(t.shown))
    ensures name != "shown" && name != "raw" ==>
              (v.None? <==> name !in t.raw) && (v.Some? ==> v.value == t.raw[name])
  {
    if name == "shown" then Some(JBool(t.shown))
    else if name == "raw" then Some(JObj(t.raw))
    else if name in t.raw then Some(t.raw[name])
    else None
  }

  /** `[Tweet(tweet) for tweet in batch]`. */
  function Wrap(batch: seq<Record>): seq<Tweet> {
    seq(|batch|, i requires 0 <= i < |batch| => Tweet(batch[i], false))
  }

  /** The raw records behind a list of tweets. */
  function Raws(ts: seq<Tweet>): seq<Record> {
    seq(|ts|, i requires 0 <= i < |ts| => ts[i].raw)
  }

  /** Wrapping a batch keeps one tweet per record, in batch order. */
  lemma RawsWrap(batch: seq<Record>)
    ensures |Wrap(batch)| == |batch|
    ensures Raws(Wrap(batch)) == batch
  {
  }

  // ---------------------------------------------------------------------
  // The unshown filter of print_tweets (tweet_handler.py:51-55)
  // ---------------------------------------------------------------------

  /** The tweets `print_tweets` visits: those not yet shown, in list order. */
  function Unshown(ts: seq<Tweet>): (us: seq<Tweet>)
    ensures |us| <= |ts|
    ensures forall i :: 0 <= i < |us| ==> !us[i].shown
  {
    if ts == [] then []
    else if ts[0].shown then Unshown(ts[1..])
    else [ts[0]] + Unshown(ts[1..])
  }

  /** `a` is `b` with some elements left out, the rest in their order. */
  ghost predicate Subsequence<T>(a: seq<T>, b: seq<T>)
    decreases |a| + |b|
  {
    a == [] || (b != [] && ((a[0] == b[0] && Subsequence(a[1..], b[1..])) || Subsequence(a, b[1..])))
  }

  lemma {:induction false} UnshownConcat(a: seq<Tweet>, b: seq<Tweet>)
    ensures Unshown(a + b) == Unshown(a) + Unshown(b)
    decreases |a|
  {
    if a == [] {
      assert a + b == b;
    } else {
      assert (a + b)[1..] == a[1..] + b;
      UnshownConcat(a[1..], b);
    }
  }

  /** The visited tweets keep the list order. */
  lemma {:induction false} UnshownInOrder(ts: seq<Tweet>)
    ensures Subsequence(Unshown(ts), ts)
    decreases |ts|
  {
    if ts != [] {
      UnshownInOrder(ts[1..]);
      if !ts[0].shown {
        assert Unshown(ts)[1..] == Unshown(ts[1..]);
      }
    }
  }

  /** Every unshown tweet is visited, as often as it occurs, and no shown
      tweet is. */
  lemma {:induction false} UnshownExactly(ts: seq<Tweet>, t: Tweet)
    ensures multiset(Unshown(ts))[t] == if t.shown then 0 else multiset(ts)[t]
    decreases |ts|
  {
    if ts != [] {
      UnshownExactly(ts[1..], t);
      assert ts == [ts[0]] + ts[1..];
    }
  }

  /** Freshly wrapped tweets are all unshown, so all of them are visited. */
  lemma {:induction false} UnshownWrap(batch: seq<Record>)
    ensures Unshown(Wrap(batch)) == Wrap(batch)
    decreases |batch|
  {
    if batch != [] {
      UnshownWrap(batch[1..]);
      assert Wrap(batch)[1..] == Wrap(batch[1..]);
    }
  }

  // ---------------------------------------------------------------------
  // print_tweet (tweet_handler.py:57-61)
  // ---------------------------------------------------------------------

  /** The colour escape sequences the header and body are wrapped in. */
  const Pink: string := "\U{1B}[95m"
  const Blue: string := "\U{1B}[94m"
  const EndColor: string := "\U{1B}[0m"

  /** The user's display name, when `tweet.user['name']` yields a string. */
  function UserName(t: Tweet): Option<string> {
    match GetAttr(t, "user")
    case Some(JObj(user)) =>
      if "name" in user && user["name"].JStr? then Some(user["name"].s) else None
    case _ => None
  }

  /** The text of the tweet, when `tweet.text` is a string. */
  function TweetText(t: Tweet): Option<string> {
    match GetAttr(t, "text")
    case Some(JStr(text)) => Some(text)
    case _ => None
  }

  /** The string `print_tweet` prints, or None where it raises: a text that
      is missing or not a string, a user that is missing or not a
      dictionary, or a user without a name. */
  function Render(t: Tweet): (out: Option<string>)
    ensures out.Some? <==> TweetText(t).Some? && UserName(t).Some?
  {
    match (TweetText(t), UserName(t))
    case (Some(text), Some(name)) =>
      Some(Pink + name + "\n    " + Blue + FormatBody(text) + EndColor)
    case _ => None
  }

  /** A rendered tweet opens with the user's name in pink, then a line break,
      four spaces and the blue escape; it closes with the end-colour escape;
      and the body between them gives back the tweet's text. */
  lemma RenderShowsText(t: Tweet)
    requires Render(t).Some?
    ensures var out := Render(t).value;
            var head := Pink + UserName(t).value + "\n    " + Blue;
            |head| <= |out| - |EndColor| &&
            out[..|head|] == head &&
            out[|out| - |EndColor|..] == EndColor &&
            UnformatBody(out[|head|..|out| - |EndColor|]) == TweetText(t).value
  {
    var out := Render(t).value;
    var head := Pink + UserName(t).value + "\n    " + Blue;
    var body := FormatBody(TweetText(t).value);
    assert out == head + body + EndColor;
    assert out[|head|..|out| - |EndColor|] == body;
    FormatBodyRoundTrip(TweetText(t).value);
  }

  /** What a run of `print_tweet` calls printed, and whether it got through
      all of its tweets. */
  datatype Printed = Printed(lines: seq<string>, ok: bool)

  /** Printing `us` in order; the first tweet that cannot be rendered raises
      and ends the run. */
  function RenderAll(us: seq<Tweet>): (p: Printed)
    ensures |p.lines| <= |us|
    ensures p.ok <==> |p.lines| == |us|
    decreases |us|
  {
    if us == [] then Printed([], true)
    else match Render(us[0])
      case None => Printed([], false)
      case Some(line) =>
        var rest := RenderAll(us[1..]);
        Printed([line] + rest.lines, rest.ok)
  }

  /** The k-th string printed is the rendering of the k-th tweet, and a run
      that stopped early stopped at a tweet that cannot be rendered. */
  lemma {:induction false} RenderAllPrints(us: seq<Tweet>)
    ensures forall k :: 0 <= k < |RenderAll(us).lines| ==> Render(us[k]) == Some(RenderAll(us).lines[k])
    ensures !RenderAll(us).ok ==> Render(us[|RenderAll(us).lines|]).None?
    decreases |us|
  {
    if us != [] && Render(us[0]).Some? {
      RenderAllPrints(us[1..]);
      var p := RenderAll(us);
      forall k | 0 < k < |p.lines| ensures Render(us[k]) == Some(p.lines[k]) {
        assert us[k] == us[1..][k - 1] && p.lines[k] == RenderAll(us[1..]).lines[k - 1];
      }
    }
  }

  /** The unshown tweets of a prefix one longer. */
  lemma UnshownSnoc(ts: seq<Tweet>, i: nat)
    requires i < |ts|
    ensures Unshown(ts[..i + 1]) == Unshown(ts[..i]) + (if ts[i].shown then [] else [ts[i]])
  {
    assert ts[..i + 1] == ts[..i] + [ts[i]];
    UnshownConcat(ts[..i], [ts[i]]);
  }

  /** Printing one more tweet after a run that got through. */
  lemma RenderAllSnoc(us: seq<Tweet>, t: Tweet)
    requires RenderAll(us).ok
    ensures RenderAll(us + [t]) ==
              if Render(t).Some? then Printed(RenderAll(us).lines + [Render(t).value], true)
              else Printed(RenderAll(us).lines, false)
  {
    RenderAllConcat(us, [t]);
    assert RenderAll(us).lines + [] == RenderAll(us).lines;
  }

  /** `print_tweets` skips a shown tweet: the first `i + 1` tweets print
      what the first `i` do. */
  lemma PrintSkipsShown(ts: seq<Tweet>, i: nat)
    requires i < |ts| && ts[i].shown
    ensures RenderAll(Unshown(ts[..i + 1])) == RenderAll(Unshown(ts[..i]))
  {
    UnshownSnoc(ts, i);
    assert Unshown(ts[..i + 1]) == Unshown(ts[..i]);
  }

  /** `print_tweets` prints an unshown tweet after the ones before it. */
  lemma PrintsUnshown(ts: seq<Tweet>, i: nat, line: string)
    requires i < |ts| && !ts[i].shown && Render(ts[i]) == Some(line)
    requires RenderAll(Unshown(ts[..i])).ok
    ensures RenderAll(Unshown(ts[..i + 1])) ==
              Printed(RenderAll(Unshown(ts[..i])).lines + [line], true)
  {
    UnshownSnoc(ts, i);
    RenderAllSnoc(Unshown(ts[..i]), ts[i]);
  }

  /** A tweet `print_tweet` cannot render ends `print_tweets` with what
      was printed before it. */
  lemma PrintStopsAt(ts: seq<Tweet>, i: nat)
    requires i < |ts| && !ts[i].shown && Render(ts[i]).None?
    requires RenderAll(Unshown(ts[..i])).ok
    ensures RenderAll(Unshown(ts)) == Printed(RenderAll(Unshown(ts[..i])).lines, false)
  {
    var before, rest := ts[..i + 1], ts[i + 1..];
    UnshownSnoc(ts, i);
    RenderAllSnoc(Unshown(ts[..i]), ts[i]);
    var stopped := RenderAll(Unshown(before));
    assert stopped == Printed(RenderAll(Unshown(ts[..i])).lines, false);
    SplitAt(ts, i + 1);
    UnshownConcat(before, rest);
    RenderAllConcat(Unshown(before), Unshown(rest));
    assert RenderAll(Unshown(before) + Unshown(rest)) == stopped;
  }

  /** Printing a concatenation: the second part is printed only when the
      first part got through. */
  lemma {:induction false} RenderAllConcat(a: seq<Tweet>, b: seq<Tweet>)
    ensures RenderAll(a + b) ==
              if RenderAll(a).ok then Printed(RenderAll(a).lines + RenderAll(b).lines, RenderAll(b).ok)
              else RenderAll(a)
    decreases |a|
  {
    if a == [] {
      assert a + b == b;
    } else {
      assert (a + b)[0] == a[0] && (a + b)[1..] == a[1..] + b;
      RenderAllConcat(a[1..], b);
      if Render(a[0]).Some? && RenderAll(a[1..]).ok {
        var line := Render(a[0]).value;
        assert [line] + (RenderAll(a[1..]).lines + RenderAll(b).lines)
            == ([line] + RenderAll(a[1..]).lines) + RenderAll(b).lines;
      }
    }
  }
}

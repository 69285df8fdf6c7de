/** The session engine of `TweetHandler` as functions over its state
    (tweet_handler.py:23-76): the command table, `load_timeline` with its
    rate-limit fallback, one line of the input loop, and the loop itself.
    The class in tweet_handler.dfy is proved against these functions. */
module Engine {
  import opened Values
  import opened Text
  import opened Tweets

  // ---------------------------------------------------------------------
  // Commands (tweet_handler.py:45-49)
  // ---------------------------------------------------------------------

  /** The handlers a command name can be bound to. */
  datatype Command = LoadTimeline

  /** Positional arguments a handler takes besides `self`. */
  function Arity(c: Command): nat {
    match c
    case LoadTimeline => 0
  }

  /** `_init_commands`: the names `t` and `timeline` and no others, both
      bound to `load_timeline`, the only handler. */
  function CommandTable(): (table: map<string, Command>)
    ensures table.Keys == {"t", "timeline"}
    ensures table["t"] == table["timeline"] == LoadTimeline
  {
    map["t" := LoadTimeline, "timeline" := LoadTimeline]
  }

  // ---------------------------------------------------------------------
  // State, the client and errors
  // ---------------------------------------------------------------------

  /** What `self.client.get_home_timeline()` does on one call. */
  datatype Fetch =
    | Fetched(batch: seq<Record>)  // returns the home timeline
    | RateLimited                  // raises TwythonRateLimitError
    | FetchFailed                  // raises anything else

  /** The exceptions that leave a handler or the loop. */
  datatype Error =
    | NoSavedTimeline                  // rate limited, and `open('temp')` finds no file
    | ClientError                      // the client raised something other than a rate limit
    | WrongArity(name: string, given: nat)  // TypeError: a handler called with arguments it does not take
    | EndOfInput                       // `raw_input` raised EOFError
    | Unprintable                      // `print_tweet` raised on a tweet

  /** The handler's state: its command table, its tweets, and the content of
      the snapshot file `temp` (None while there is no such file). */
  datatype State = State(commands: map<string, Command>, tweets: seq<Tweet>, saved: Option<seq<Record>>)

  // ---------------------------------------------------------------------
  // load_timeline (tweet_handler.py:29-43)
  // ---------------------------------------------------------------------

  /** `load_timeline`. A fetched batch is saved to `temp` and becomes the
      tweets; on a rate limit the saved batch becomes the tweets instead, and
      with no saved batch the call raises. Either way the tweets are
      replaced, never merged, and none of the new ones has been shown. On an
      error nothing changes. */
  function Load(st: State, f: Fetch): (r: Result<State, Error>)
    ensures r.Ok? <==> f.Fetched? || (f.RateLimited? && st.saved.Some?)
    ensures r.Err? ==> r.error == if f.FetchFailed? then ClientError else NoSavedTimeline
    ensures r.Ok? ==> r.value.commands == st.commands
    ensures r.Ok? ==> r.value.saved.Some? && Raws(r.value.tweets) == r.value.saved.value
    ensures r.Ok? ==> Unshown(r.value.tweets) == r.value.tweets
    ensures r.Ok? ==> Loaded(r.value)
    ensures f.Fetched? ==> r.Ok? && r.value.saved == Some(f.batch)
    ensures f.RateLimited? && r.Ok? ==> r.value.saved == st.saved
  {
    match f
    case Fetched(batch) =>
      RawsWrap(batch);
      UnshownWrap(batch);
      Ok(st.(tweets := Wrap(batch), saved := Some(batch)))
    case RateLimited =>
      if st.saved.None? then Err(NoSavedTimeline)
      else
        RawsWrap(st.saved.value);
        UnshownWrap(st.saved.value);
        Ok(st.(tweets := Wrap(st.saved.value)))
    case FetchFailed =>
      Err(ClientError)
  }

  /** The tweets are exactly the snapshot's records, wrapped and unshown. */
  predicate Loaded(st: State) {
    st.saved.Some? && st.tweets == Wrap(st.saved.value)
  }

  /** A rate-limited call right after a successful one leaves the state as
      the successful one left it. */
  lemma LoadReplaysLastBatch(st: State, batch: seq<Record>)
    ensures Load(st, Fetched(batch)).Ok?
    ensures Load(Load(st, Fetched(batch)).value, RateLimited) == Load(st, Fetched(batch))
  {
  }

  /** Successive `load_timeline` calls, one per element of `fs`, stopping
      at the first that raises. */
  function LoadAll(st: State, fs: seq<Fetch>): Result<State, Error>
    decreases |fs|
  {
    if fs == [] then Ok(st)
    else match LoadAll(st, fs[..|fs| - 1])
      case Err(e) => Err(e)
      case Ok(s) => Load(s, fs[|fs| - 1])
  }

  /** The batch of the last successful fetch in `fs`, if any. */
  function LastFetched(fs: seq<Fetch>): Option<seq<Record>>
    decreases |fs|
  {
    if fs == [] then None
    else if fs[|fs| - 1].Fetched? then Some(fs[|fs| - 1].batch)
    else LastFetched(fs[..|fs| - 1])
  }

  /** After any run of calls that raised nothing, the snapshot is the batch
      of the most recent successful fetch (or the file that was there
      before), and the tweets are exactly that batch, in order, unshown. */
  lemma {:induction false} LoadAllKeepsLatestBatch(st: State, fs: seq<Fetch>)
    requires LoadAll(st, fs).Ok?
    ensures LoadAll(st, fs).value.saved == if LastFetched(fs).Some? then LastFetched(fs) else st.saved
    ensures fs != [] ==> LoadAll(st, fs).value.tweets == Wrap(LoadAll(st, fs).value.saved.value)
    decreases |fs|
  {
    if fs != [] {
      var init := fs[..|fs| - 1];
      LoadAllKeepsLatestBatch(st, init);
    }
  }

  /** Successive calls seen from the first one: a call that raises ends
      the run, otherwise the rest start from the state it left. */
  lemma {:induction false} LoadAllCons(st: State, f: Fetch, fs: seq<Fetch>)
    ensures LoadAll(st, [f] + fs) ==
              match Load(st, f)
              case Ok(s) => LoadAll(s, fs)
              case Err(e) => Err(e)
    decreases |fs|
  {
    if fs == [] {
      assert [f] + fs == [f];
      assert [f][..0] == [];
    } else {
      var init := fs[..|fs| - 1];
      assert ([f] + fs)[..|fs|] == [f] + init;
      LoadAllCons(st, f, init);
    }
  }

  // ---------------------------------------------------------------------
  // One input line (tweet_handler.py:67-76)
  // ---------------------------------------------------------------------

  /** Whether the loop goes on, ends, or is ended by an exception. */
  datatype Next = Continue | Quit | Stop(error: Error)

  /** A line's effect; `fetched` tells whether the client was called. */
  datatype StepResult = StepResult(state: State, next: Next, fetched: bool)

  /** Lines 73-76: split the line on whitespace runs, look the first token
      up, and call its handler with the other tokens as positional
      arguments. An unknown name does nothing; a handler given arguments it
      does not take raises before it runs. */
  function Execute(st: State, line: string, f: Fetch): (r: StepResult)
    ensures r.next != Quit
    ensures r.state.commands == st.commands
    ensures !r.fetched ==> r.state == st
    ensures SplitWs(line)[0] !in st.commands ==> r == StepResult(st, Continue, false)
    ensures r.fetched <==> SplitWs(line)[0] in st.commands && |SplitWs(line)| == 1
    ensures SplitWs(line)[0] in st.commands && |SplitWs(line)| > 1 ==>
              r == StepResult(st, Stop(WrongArity(SplitWs(line)[0], |SplitWs(line)| - 1)), false)
    ensures r.fetched ==>
              r == if Load(st, f).Ok? then StepResult(Load(st, f).value, Continue, true)
                   else StepResult(st, Stop(Load(st, f).error), true)
  {
    var tokens := SplitWs(line);
    var name := tokens[0];
    if name !in st.commands then StepResult(st, Continue, false)
    else
      var command := st.commands[name];
      if |tokens| - 1 != Arity(command) then StepResult(st, Stop(WrongArity(name, |tokens| - 1)), false)
      else
        match command
        case LoadTimeline =>
          match Load(st, f)
          case Ok(loaded) => StepResult(loaded, Continue, true)
          case Err(e) => StepResult(st, Stop(e), true)
  }

  /** One line read by the loop: an empty line is skipped, exactly `q` ends
      the loop, and anything else is a command line. */
  function Step(st: State, line: string, f: Fetch): (r: StepResult)
    ensures r.next == Quit <==> line == "q"
    ensures line == "" ==> r == StepResult(st, Continue, false)
    ensures r.state.commands == st.commands
    ensures !r.fetched ==> r.state == st
  {
    if line == "" then StepResult(st, Continue, false)
    else if line == "q" then StepResult(st, Quit, false)
    else Execute(st, line, f)
  }

  /** A line that starts with whitespace names the command `''`, which is
      never bound: it is ignored. */
  lemma StepLeadingSpace(st: State, line: string, f: Fetch)
    requires "" !in st.commands
    requires line != "" && IsSpace(line[0])
    ensures Step(st, line, f) == StepResult(st, Continue, false)
  {
  }

  /** A line that ends with whitespace gets a trailing empty argument, so a
      known command on it raises a TypeError instead of running. */
  lemma StepTrailingSpace(st: State, line: string, f: Fetch)
    requires line != "" && IsSpace(line[|line| - 1])
    requires SplitWs(line)[0] in st.commands
    ensures |SplitWs(line)| >= 2 && SplitWs(line)[|SplitWs(line)| - 1] == ""
    ensures Step(st, line, f) ==
              StepResult(st, Stop(WrongArity(SplitWs(line)[0], |SplitWs(line)| - 1)), false)
  {
    assert !NoSpace(line);
  }

  /** A known command given any argument raises a TypeError before its
      handler runs, since no handler takes arguments: the loop ends. */
  lemma StepExtraArguments(st: State, line: string, f: Fetch)
    requires SplitWs(line)[0] in st.commands && |SplitWs(line)| > 1
    ensures Step(st, line, f) ==
              StepResult(st, Stop(WrongArity(SplitWs(line)[0], |SplitWs(line)| - 1)), false)
  {
    assert NoSpace("q");
  }

  /** `t` and `timeline` each run load_timeline with the table `_init_commands` builds. */
  lemma StepLoadCommand(st: State, line: string, f: Fetch)
    requires st.commands == CommandTable()
    requires line == "t" || line == "timeline"
    ensures Step(st, line, f).fetched
    ensures Load(st, f).Ok? ==> Step(st, line, f) == StepResult(Load(st, f).value, Continue, true)
    ensures Load(st, f).Err? ==> Step(st, line, f) == StepResult(st, Stop(Load(st, f).error), true)
  {
    if line == "t" {
      assert NoSpace("t");
    } else {
      assert NoSpace("timeline");
    }
    SplitWsNoSpace(line);
    assert line in st.commands && st.commands[line] == LoadTimeline;
    assert line != "" && line != "q";
    var r := Load(st, f);
    assert Execute(st, line, f) ==
      if r.Ok? then StepResult(r.value, Continue, true) else StepResult(st, Stop(r.error), true);
  }

  // ---------------------------------------------------------------------
  // The loop (tweet_handler.py:63-76)
  // ---------------------------------------------------------------------

  /** How the loop ends: `q`, or an exception. */
  datatype Exit = Finished | Crashed(error: Error)

  datatype RunResult = RunResult(state: State, exit: Exit, calls: nat)

  /** The `while True` loop over the lines still to be read. `fetch(k)` is
      what the client does on its k-th call and `calls` counts the calls
      made so far. Running out of lines is the EOFError of `raw_input`. */
  function Run(st: State, lines: seq<string>, fetch: nat -> Fetch, calls: nat): (r: RunResult)
    ensures r.state.commands == st.commands
    ensures calls <= r.calls <= calls + |lines|
    ensures r.exit == Finished ==> "q" in lines
    decreases |lines|
  {
    if lines == [] then RunResult(st, Crashed(EndOfInput), calls)
    else
      var step := Step(st, lines[0], fetch(calls));
      var next := if step.fetched then calls + 1 else calls;
      match step.next
      case Continue => Run(step.state, lines[1..], fetch, next)
      case Quit => RunResult(step.state, Finished, next)
      case Stop(e) => RunResult(step.state, Crashed(e), next)
  }

  /** A line the loop skips without effect: empty, or not `q` and naming no
      command. */
  predicate Ignored(commands: map<string, Command>, line: string) {
    line == "" || (line != "q" && SplitWs(line)[0] !in commands)
  }

  /** Lines that are empty or name no command neither change the state nor
      call the client: the loop goes on as if they had not been typed. */
  lemma {:induction false} RunSkipsIgnored(st: State, ignored: seq<string>, rest: seq<string>, fetch: nat -> Fetch, calls: nat)
    requires forall i :: 0 <= i < |ignored| ==> Ignored(st.commands, ignored[i])
    ensures Run(st, ignored + rest, fetch, calls) == Run(st, rest, fetch, calls)
    decreases |ignored|
  {
    if ignored == [] {
      assert ignored + rest == rest;
    } else {
      var lines := ignored + rest;
      assert lines[0] == ignored[0] && lines[1..] == ignored[1..] + rest;
      assert Step(st, lines[0], fetch(calls)) == StepResult(st, Continue, false);
      RunSkipsIgnored(st, ignored[1..], rest, fetch, calls);
    }
  }

  /** The first `q` ends the loop: the lines after it are never read, and
      the loop ends as the lines before it leave it, normally if they
      neither raised nor ran out. */
  lemma {:induction false} RunStopsAtFirstQuit(st: State, pre: seq<string>, post: seq<string>, fetch: nat -> Fetch, calls: nat)
    requires "q" !in pre
    ensures Run(st, pre + ["q"] + post, fetch, calls) ==
              var r := Run(st, pre, fetch, calls);
              if r.exit == Crashed(EndOfInput) then RunResult(r.state, Finished, r.calls) else r
    decreases |pre|
  {
    var lines := pre + ["q"] + post;
    if pre == [] {
      assert lines[0] == "q";
    } else {
      assert lines[0] == pre[0] && lines[1..] == pre[1..] + ["q"] + post;
      var step := Step(st, pre[0], fetch(calls));
      var next := if step.fetched then calls + 1 else calls;
      if step.next.Continue? {
        RunStopsAtFirstQuit(step.state, pre[1..], post, fetch, next);
      }
    }
  }

  /** What the client does on calls `from` up to `to`. */
  function Calls(fetch: nat -> Fetch, from: nat, to: nat): seq<Fetch>
    requires from <= to
  {
    seq(to - from, i requires 0 <= i < to - from => fetch(from + i))
  }

  /** The loop ended because a `load_timeline` call raised. */
  predicate LoadFailed(exit: Exit) {
    exit.Crashed? && (exit.error.ClientError? || exit.error.NoSavedTimeline?)
  }

  /** The loop's state is the state the `load_timeline` calls it made leave,
      one per client call, in order; it ends on a load error exactly when
      the first of those calls to raise does. */
  lemma {:induction false} RunIsLoadAll(st: State, lines: seq<string>, fetch: nat -> Fetch, calls: nat)
    ensures var r := Run(st, lines, fetch, calls);
            LoadAll(st, Calls(fetch, calls, r.calls)) ==
              if LoadFailed(r.exit) then Err(r.exit.error) else Ok(r.state)
    decreases |lines|
  {
    var r := Run(st, lines, fetch, calls);
    if lines == [] {
      assert Calls(fetch, calls, r.calls) == [];
    } else {
      var step := Step(st, lines[0], fetch(calls));
      if !step.fetched {
        if step.next.Continue? {
          RunIsLoadAll(st, lines[1..], fetch, calls);
        } else {
          assert Calls(fetch, calls, r.calls) == [];
        }
      } else {
        var rest := Calls(fetch, calls + 1, r.calls);
        assert Calls(fetch, calls, r.calls) == [fetch(calls)] + rest;
        LoadAllCons(st, fetch(calls), rest);
        if step.next.Continue? {
          RunIsLoadAll(step.state, lines[1..], fetch, calls + 1);
        } else {
          assert rest == [];
        }
      }
    }
  }

  /** Unless a load raised, after the loop the snapshot is the batch of the
      latest successful fetch it made (or the one there before), and after
      any call the tweets are exactly that batch: a rate limit replays it. */
  lemma RunKeepsLatestBatch(st: State, lines: seq<string>, fetch: nat -> Fetch, calls: nat)
    requires !LoadFailed(Run(st, lines, fetch, calls).exit)
    ensures var r := Run(st, lines, fetch, calls);
            var fs := Calls(fetch, calls, r.calls);
            r.state.saved == (if LastFetched(fs).Some? then LastFetched(fs) else st.saved) &&
            (fs != [] ==> r.state.saved.Some? && r.state.tweets == Wrap(r.state.saved.value))
  {
    var r := Run(st, lines, fetch, calls);
    RunIsLoadAll(st, lines, fetch, calls);
    LoadAllKeepsLatestBatch(st, Calls(fetch, calls, r.calls));
  }

  /** Once the tweets are the snapshot's records, the loop keeps them so. */
  lemma {:induction false} RunKeepsLoaded(st: State, lines: seq<string>, fetch: nat -> Fetch, calls: nat)
    requires Loaded(st)
    ensures Loaded(Run(st, lines, fetch, calls).state)
    decreases |lines|
  {
    if lines != [] {
      var step := Step(st, lines[0], fetch(calls));
      var next := if step.fetched then calls + 1 else calls;
      if step.next.Continue? {
        RunKeepsLoaded(step.state, lines[1..], fetch, next);
      }
    }
  }

  datatype SessionResult = SessionResult(state: State, exit: Exit, printed: seq<string>)

  /** `loop`: load the timeline, print the tweets not yet shown, then read
      lines until `q` or an exception. The client's first call is the
      initial load. */
  function Session(st: State, lines: seq<string>, fetch: nat -> Fetch): (r: SessionResult)
    ensures r.state.commands == st.commands
    ensures r.exit == Finished ==> "q" in lines
    ensures Load(st, fetch(0)).Err? ==>
              r == SessionResult(st, Crashed(Load(st, fetch(0)).error), [])
    ensures Load(st, fetch(0)).Ok? ==>
              r.printed == RenderAll(Unshown(Load(st, fetch(0)).value.tweets)).lines
  {
    match Load(st, fetch(0))
    case Err(e) => SessionResult(st, Crashed(e), [])
    case Ok(loaded) =>
      var p := RenderAll(Unshown(loaded.tweets));
      if !p.ok then SessionResult(loaded, Crashed(Unprintable), p.lines)
      else
        var run := Run(loaded, lines, fetch, 1);
        SessionResult(run.state, run.exit, p.lines)
  }

  /** On start-up every tweet of the first batch is printed, in batch order,
      as far as the tweets can be rendered. */
  lemma SessionPrintsFirstBatch(st: State, lines: seq<string>, fetch: nat -> Fetch)
    requires fetch(0).Fetched?
    ensures Session(st, lines, fetch).printed == RenderAll(Wrap(fetch(0).batch)).lines
  {
    UnshownWrap(fetch(0).batch);
  }

  /** After a session whose start-up load succeeded, the tweets are exactly
      the snapshot's records, whatever the lines did. */
  lemma SessionKeepsLoaded(st: State, lines: seq<string>, fetch: nat -> Fetch)
    requires Load(st, fetch(0)).Ok?
    ensures Loaded(Session(st, lines, fetch).state)
  {
    var loaded := Load(st, fetch(0)).value;
    if RenderAll(Unshown(loaded.tweets)).ok {
      RunKeepsLoaded(loaded, lines, fetch, 1);
    }
  }
}

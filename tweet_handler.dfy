/** The `TweetHandler` object (tweet_handler.py:23-76). Its fields change in
    place; each method is proved against the function of Engine that states
    what it does, and the properties are proved about those functions. */
module Handler {
  import opened Values
  import opened Text
  import opened Tweets
  import opened Engine

  class TweetHandler {
    /** `self.commands`: command name to handler. */
    var commands: map<string, Command>
    /** `self.tweets`: the tweets of the last load, in batch order. */
    var tweets: seq<Tweet>
    /** The content of the file `temp`; None while there is no such file. */
    var saved: Option<seq<Record>>

    /** The handler's state as a value. */
    function Model(): State
      reads this
    {
      State(commands, tweets, saved)
    }

    /** `__init__`: build the command table and start with no tweets. The
        client is not kept: each call to it is an argument of the method
        that makes it. `saved` is what `temp` holds at start-up. */
    constructor (saved: Option<seq<Record>>)
      ensures Model() == State(CommandTable(), [], saved)
    {
      this.saved := saved;
      commands := map[];
      tweets := [];
      new;
      InitCommands();
      tweets := [];
    }

    /** `_init_commands`. */
    method InitCommands()
      modifies this`commands
      ensures commands == CommandTable()
    {
      commands := map["t" := Command.LoadTimeline, "timeline" := Command.LoadTimeline];
    }

    /** `load_timeline`, given what the client does on this call. Returns the
        number of tweets it reports, or the exception that leaves it; on an
        exception nothing has changed. */
    method LoadTimeline(fetch: Fetch) returns (r: Result<nat, Error>)
      modifies this`tweets, this`saved
      ensures Load(old(Model()), fetch).Ok? ==>
                Model() == Load(old(Model()), fetch).value && r == Ok(|tweets|)
      ensures Load(old(Model()), fetch).Err? ==>
                Model() == old(Model()) && r == Err(Load(old(Model()), fetch).error)
    {
      var batch: seq<Record>;
      match fetch {
        case Fetched(b) =>
          batch := b;
          saved := Some(b);
        case RateLimited =>
          if saved.None? {
            return Err(NoSavedTimeline);
          }
          batch := saved.value;
        case FetchFailed =>
          return Err(ClientError);
      }
      tweets := Wrap(batch);
      r := Ok(|batch|);
    }

    /** `print_tweets`: the strings printed for the tweets not yet shown, in
        list order, and whether every one of them could be printed. `max` is
        unused. No flag is set and nothing changes, so a second call prints
        the same. */
    method PrintTweets(max: int := 10) returns (printed: seq<string>, ok: bool)
      ensures Printed(printed, ok) == RenderAll(Unshown(tweets))
    {
      printed := [];
      for i := 0 to |tweets|
        invariant RenderAll(Unshown(tweets[..i])) == Printed(printed, true)
      {
        var tweet := tweets[i];
        if tweet.shown {
          PrintSkipsShown(tweets, i);
          continue;
        }
        var out := Render(tweet);
        if out.None? {
          PrintStopsAt(tweets, i);
          return printed, false;
        }
        PrintsUnshown(tweets, i, out.value);
        printed := printed + [out.value];
      }
      assert tweets[..|tweets|] == tweets;
      ok := true;
    }

    /** Lines 73-76 of `loop`, for a line that is neither empty nor `q`:
        split it, look up the first token, call the handler with the rest. */
    method Dispatch(line: string, fetch: Fetch) returns (next: Next, fetched: bool)
      modifies this`tweets, this`saved
      ensures StepResult(Model(), next, fetched) == Execute(old(Model()), line, fetch)
    {
      var parts := SplitWs(line);
      var name := parts[0];
      var args := parts[1..];
      if name !in commands {
        return Continue, false;
      }
      var command := commands[name];
      if |args| != Arity(command) {
        return Stop(WrongArity(name, |args|)), false;
      }
      match command {
        case LoadTimeline =>
          var r := LoadTimeline(fetch);
          next := if r.Ok? then Continue else Stop(r.error);
          fetched := true;
      }
    }

    /** `loop`: load and print the timeline, then read lines until `q` or an
        exception. `lines` is the console input and `fetch(k)` what the
        client does on its k-th call. */
    method Loop(lines: seq<string>, fetch: nat -> Fetch) returns (exit: Exit, printed: seq<string>)
      modifies this`tweets, this`saved
      ensures SessionResult(Model(), exit, printed) == Session(old(Model()), lines, fetch)
    {
      var loaded := LoadTimeline(fetch(0));
      if loaded.Err? {
        return Crashed(loaded.error), [];
      }
      var ok;
      printed, ok := PrintTweets();
      if !ok {
        return Crashed(Unprintable), printed;
      }
      ghost var start := Model();
      var i, calls := 0, 1;
      while true
        invariant 0 <= i <= |lines|
        invariant commands == start.commands
        invariant Run(Model(), lines[i..], fetch, calls) == Run(start, lines, fetch, 1)
        decreases |lines| - i
      {
        if i == |lines| {
          return Crashed(EndOfInput), printed;
        }
        var line := lines[i];
        assert lines[i..][0] == line && lines[i..][1..] == lines[i + 1..];
        i := i + 1;
        if line == "" {
          continue;
        }
        if line == "q" {
          return Finished, printed;
        }
        var next, fetched := Dispatch(line, fetch(calls));
        if fetched {
          calls := calls + 1;
        }
        if next.Stop? {
          return Crashed(next.error), printed;
        }
      }
    }
  }
}

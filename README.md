# PyTweet session engine in Dafny

This project models `TweetHandler`, the interactive core of PyTweet, a
console Twitter client in Python 2 (`tweet_handler.py`), and proves
properties of it. The handler:

- loads the home timeline through a client;
- saves every fetched batch to the file `temp`;
- falls back on that file when the service answers with a rate limit;
- wraps each raw tweet in a `Tweet` object;
- prints the tweets not yet shown, in colour, each body line indented by
  two spaces;
- reads command lines until `q`. Each line is split on whitespace runs,
  the first token is looked up in the command table, and its handler is
  called with the remaining tokens as positional arguments.

The model has five modules, one file each:

| file | module | what it holds |
|---|---|---|
| `values.dfy` | `Values` | `Option`, `Result`, JSON values, a raw tweet record, and a sequence fact the proofs share |
| `text.dfy` | `Text` | `str.split` on one character, `str.join`, `re.split(r'\s+', ...)`, the body indentation of `print_tweet` |
| `tweet.dfy` | `Tweets` | the `Tweet` wrapper and its attribute lookup, the unshown filter, `print_tweet`, `print_tweets` |
| `engine.dfy` | `Engine` | the handler's state, the command table, `load_timeline`, one loop iteration, the loop, as functions |
| `tweet_handler.dfy` | `Handler` | the class `TweetHandler`, whose fields its methods update in place; each method is proved against its `Engine` function |

The client is not code the model can see, so it becomes an input:

- a `Fetch` value tells what one call of `get_home_timeline` does: return a
  batch, raise the rate-limit error, or raise anything else;
- `fetch: nat -> Fetch` tells what the k-th call does;
- the console input is a sequence of lines, and running out of lines is the
  `EOFError` of `raw_input`;
- the file `temp` is the state component `saved`, which is `None` while no
  such file exists.

Exceptions become `Error` values:

- a handler that raises leaves the state as it was;
- the loop ends with `Crashed(error)`;
- `q` ends it with `Finished`.

### What this version of the handler does and does not do

This snapshot of the handler is small:

- it has no deduplication of tweets, no cursor, no local ids and no sorting;
- the only commands are `t` and `timeline`, both bound to `load_timeline`;
  there is no command to show, post, reply to, favorite or retweet a tweet,
  to follow a conversation, or to print help;
- a load replaces the tweet list; it never merges into it;
- every token after the command name is a separate positional argument;
  the rest of the line is not passed on as one string;
- the snapshot in `temp` is used on every rate limit, not only before the
  first successful load, and the load raises when there is no such file.

Quirks of the code that the model states outright:

- a line with leading whitespace names the command `''` and is ignored
  (`Engine.StepLeadingSpace`);
- no handler takes arguments, so a known command followed by any argument
  raises a `TypeError` and ends the loop (`Engine.StepExtraArguments`);
  trailing whitespace alone is enough, because it adds an empty argument
  (`Engine.StepTrailingSpace`);
- nothing ever sets `shown`, so `print_tweets` never skips a tweet; it runs
  once, at start-up, and stops at the first tweet it cannot print; a list
  loaded later by `t` or `timeline` is never printed.

## Model

| member | source | states |
|---|---|---|
| Text.SplitOn | tweet_handler.py:58 | `text.split('\n')` gives one piece more than there are separators, and no piece holds the separator |
| Text.JoinSplit | tweet_handler.py:58 | joining the pieces of a split with the separator gives back the original string |
| Text.SplitJoin | tweet_handler.py:58 | splitting a join of pieces that hold no separator gives back exactly those pieces |
| Text.FormatBodyLines | tweet_handler.py:58 | the formatted body has exactly the text's lines, one for one, each behind a two-space margin |
| Text.FormatBodyNewlines | tweet_handler.py:58 | formatting keeps the number of line breaks |
| Text.FormatBodyRoundTrip | tweet_handler.py:58 | removing the two-space margin from each line of the formatted body restores the text |
| Text.SplitWs | tweet_handler.py:73 | `re.split(r'\s+', line)` gives at least one token and no token holds whitespace; the first token is the prefix before the first whitespace character; the first token is empty exactly when the line is empty or starts with whitespace; there is one token exactly when the line holds no whitespace; the last token is empty exactly when the line is empty or ends with whitespace |
| Text.SplitWsNoSpace | tweet_handler.py:73-74 | a line without whitespace is a single token, the line itself |
| Text.SplitWsCollapse | tweet_handler.py:73 | joining the tokens with single spaces is the line with each whitespace run collapsed to one space, so the tokens are the line's words, in order, and nothing else |
| Text.SplitWsAsSplitOn | tweet_handler.py:73 | the whitespace split equals splitting the collapsed line on single spaces |
| Tweets.GetAttr | tweet_handler.py:15-21 | attribute `shown` is the instance flag; a key of the record read as an attribute is the raw record's value under that key, and an attribute that is neither a key nor an instance attribute has no value |
| Tweets.RawsWrap | tweet_handler.py:43 | wrapping a batch gives one tweet per record, holding those records in batch order |
| Tweets.Unshown | tweet_handler.py:51-55 | the tweets `print_tweets` visits are no more than the list and none of them has been shown |
| Tweets.UnshownInOrder | tweet_handler.py:52-54 | the visited tweets are a subsequence of the list, in list order |
| Tweets.UnshownExactly | tweet_handler.py:52-54 | every unshown tweet is visited as often as it occurs in the list, and no shown tweet is visited |
| Tweets.UnshownWrap | tweet_handler.py:16-18 | freshly wrapped tweets are all visited |
| Tweets.Render | tweet_handler.py:57-61 | `print_tweet` produces output exactly when the text is a string and the user is a dictionary whose name is a string |
| Tweets.RenderShowsText | tweet_handler.py:57-61 | the output starts with the pink escape, the user's name, a line break, four spaces and the blue escape, and ends with the end-colour escape; the body between them, with its margin removed, is the tweet's text |
| Tweets.RenderAll | tweet_handler.py:51-55 | printing stops after no more lines than tweets, and it gets through exactly when every tweet is printed |
| Tweets.RenderAllPrints | tweet_handler.py:51-61 | the k-th printed string is the rendering of the k-th visited tweet, and a run that stops early stops at a tweet that cannot be rendered |
| Tweets.RenderAllConcat | tweet_handler.py:52-55 | printing a concatenation prints the second part only when the first part got through |
| Tweets.PrintSkipsShown | tweet_handler.py:53-54 | a shown tweet adds nothing to what is printed |
| Tweets.PrintsUnshown | tweet_handler.py:55 | an unshown, renderable tweet adds its rendering after what was printed before it |
| Tweets.PrintStopsAt | tweet_handler.py:55-61 | an unrenderable unshown tweet ends the printing of the whole list with what was printed before it |
| Engine.CommandTable | tweet_handler.py:45-49 | the command names are exactly `t` and `timeline`, both bound to `load_timeline` |
| Engine.Load | tweet_handler.py:29-43 | the load succeeds exactly when the client returns a batch, or is rate limited while a snapshot exists; other client errors give `ClientError`, a missing snapshot gives `NoSavedTimeline`; on success the tweets are the snapshot, in order and unshown, a fetched batch becomes the snapshot, a rate limit keeps it, and the command table is unchanged |
| Engine.LoadReplaysLastBatch | tweet_handler.py:32-41 | a rate-limited load right after a successful fetch leaves the state the fetch left |
| Engine.LoadAllCons | tweet_handler.py:29-43 | a run of loads is its first load followed by the rest from the state it left, or that load's error |
| Engine.LoadAllKeepsLatestBatch | tweet_handler.py:29-43 | after any run of loads that raised nothing, the snapshot is the batch of the latest successful fetch (or the one there before), and the tweets are exactly that batch wrapped |
| Engine.Execute | tweet_handler.py:73-76 | a command line never quits and never changes the command table; an unknown first token changes nothing; a known command with any argument raises the wrong-arity error and changes nothing; the client is called exactly when the first token is a command and there are no further tokens, and then the result is that of `load_timeline`; without a call the state is unchanged |
| Engine.Step | tweet_handler.py:67-76 | the loop ends exactly on the line `q`, an empty line changes nothing, a line that does not call the client changes nothing, and the command table never changes |
| Engine.StepLeadingSpace | tweet_handler.py:73-76 | a line starting with whitespace is ignored |
| Engine.StepTrailingSpace | tweet_handler.py:73-76 | a known command with trailing whitespace gets an empty last argument and raises a wrong-arity error without calling the client |
| Engine.StepExtraArguments | tweet_handler.py:73-76 | a known command given any argument raises the wrong-arity error without calling the client, and the state is unchanged |
| Engine.StepLoadCommand | tweet_handler.py:73-76 | with the built table, `t` and `timeline` each perform exactly one `load_timeline` |
| Engine.Run | tweet_handler.py:66-76 | the loop keeps the command table, makes at most one client call per line, and ends normally only if `q` was typed |
| Engine.RunStopsAtFirstQuit | tweet_handler.py:66-71 | the first `q` ends the loop: the lines after it are never read, and the loop finishes normally unless a line before it raised |
| Engine.RunIsLoadAll | tweet_handler.py:66-76 | the loop's final state is what its `load_timeline` calls leave, one per client call, in order; it ends on a load error exactly when one of those calls raised, with that error |
| Engine.RunKeepsLatestBatch | tweet_handler.py:31-43 | unless a load raised, after the loop the snapshot is the batch of the latest successful fetch (or the one there before), and after any call the tweets are exactly that batch |
| Engine.RunKeepsLoaded | tweet_handler.py:66-76 | once the tweets are the snapshot's records, every line of the loop keeps them so |
| Engine.RunSkipsIgnored | tweet_handler.py:67-75 | empty lines and lines naming no command can be dropped from the input without changing the outcome |
| Engine.Session | tweet_handler.py:63-76 | a session keeps the command table and finishes normally only if `q` was typed; a failed start-up load ends it with that error, the state unchanged and nothing printed; after a successful start-up load it prints what `print_tweets` prints for the loaded tweets |
| Engine.SessionKeepsLoaded | tweet_handler.py:63-76 | after a session whose start-up load succeeded, the tweets are exactly the snapshot's records, wrapped and unshown |
| Engine.SessionPrintsFirstBatch | tweet_handler.py:63-65 | when the first fetch returns a batch, start-up prints that batch in order, as far as it can be rendered |
| Handler.TweetHandler.constructor | tweet_handler.py:24-27 | a new handler holds the built command table, no tweets, and the snapshot found at start-up |
| Handler.TweetHandler.InitCommands | tweet_handler.py:45-49 | the command field becomes the command table |
| Handler.TweetHandler.LoadTimeline | tweet_handler.py:29-43 | the new state is `Engine.Load` of the old one and the reported count is the number of tweets; on an error nothing changes |
| Handler.TweetHandler.PrintTweets | tweet_handler.py:51-55 | the loop prints exactly what `Tweets.RenderAll` of the unshown tweets prints, and changes nothing |
| Handler.TweetHandler.Dispatch | tweet_handler.py:73-76 | the new state, the loop's continuation and whether the client was called are those of `Engine.Execute` |
| Handler.TweetHandler.Loop | tweet_handler.py:63-76 | the final state, how the loop ended and what it printed are those of `Engine.Session` |

## Left out

- `pytweet.py` is not part of this model: the OAuth handshake, the PIN prompt, the credentials file and the construction of the client.
- The Twython client is an input (`Fetch`, `fetch: nat -> Fetch`). Every exception other than the rate-limit error becomes one `ClientError`.
- Writing the snapshot with `json.dump` and reading it back with `json.load` is taken to be exact. Errors while writing or parsing `temp` are not modelled; the only file error modelled is a missing `temp`.
- JSON numbers are integers only; floating point is not modelled.
- Console output is not modelled: the `Loading timeline...` message on standard error, the prompt of `raw_input` and the newline `print` adds. The `Found %d tweets` count is the value `Handler.TweetHandler.LoadTimeline` returns.
- Tweets are values, not objects: aliasing of `Tweet` objects and updates of `shown` in place are not modelled, because nothing in this code sets `shown`.
- Tweets.Render: a user name that is not a string, which `'%s'` would format with `str()`, is treated as unprintable. A text that is not a string is unprintable, as in the code.
- Tweets.GetAttr: Python calls `__getattr__` only after normal lookup fails, so names of class attributes and methods (`__class__`, `__dict__`, `__init__`, ...) never reach the record; the model has only the instance attributes `raw` and `shown` and the record's keys.
- Strings are sequences of characters: the byte-string and unicode distinction of Python 2 is not modelled, and `\s` is the six ASCII whitespace characters of a byte-string pattern.
- Only the three colour constants the handler uses (`PINK`, `BLUE`, `ENDC`) are modelled; `GREEN`, `YELLOW` and `RED` are unused.
- Handler.TweetHandler.PrintTweets: the `max` parameter is kept and, as in the code, unused.
- `KeyboardInterrupt` and other exceptions not raised by the handler's own code are not modelled.

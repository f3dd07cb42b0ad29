# simpleTerminal engine, modelled in Dafny

This project models the engine inside the jQuery plugin `simpleTerminal`, a
simulated terminal for web pages. It covers four parts:

- The command history: the submitted lines and a marker that the Up and Down
  keys move. Past the newest entry the line goes blank.
- The Enter transition. In order, it echoes the line after the prompt,
  clears the input, calls the user's command callback, commits the line to
  the history and resets the marker.
- The Tab rewrite. The line is split on single spaces and the last word is
  handed to an external completer. The line is then rebuilt.
- The output log: `echo`, `success`, `error` (which escapes the first `<` and
  the first `>`), `clear`, and the intro lines echoed at start-up.

Files and modules:

- `wrappers.dfy` (`Wrappers`): `Option`. It stands for an option left
  `undefined` (the prompt, the intro), for a missing CSS class, and for a key
  press that makes no `updateCommandLine` call. The `undefined` read from
  past the end of the history is `History.Lookup.Undefined` instead.
- `jsstring.dfy` (`JsString`): the string built-ins the plugin uses.
  These are `split(' ')`, `join(' ')`, and `replace` with a one-character
  pattern. `IndexOf` is the first-occurrence search inside `replace`. Split
  and join are proved to be inverses.
- `history.dfy` (`History`): the pure transitions of the history
  (`HistoryState`, `PreviousStep`, `NextStep`, `Appended`, ...) and their
  lemmas. It also holds the class `CommandHistory`, whose methods update
  `items` and `marker` in place. Each method is proved to follow its
  transition function.
- `output.dfy` (`Output`): the `Line` record, the escaping done by `error`,
  and the class `Terminal`, whose methods append to or empty `lines`.
- `completion.dfy` (`TabCompletion`): the Tab rewrite as a function and its lemmas.
- `session.dfy` (`Session`): the class `SimpleTerminal`. Its constructor covers
  the plugin set-up and its methods cover the Up, Down, Enter and Tab keys.

Where the code and its comments disagree, the model follows the code:

- `newItem` keeps the last 20 entries and then pushes, so the history holds
  up to 21 entries. This contradicts the comment at line 89, which says the
  maximum is 20. The model's bound is 21 (`History.CommitAllIsRecent`).
- Enter echoes `prompt + " " + command`, and the prompt already ends in a
  space (line 47). The echoed line therefore has two spaces. An empty line
  echoes `prompt + " "`.
- `next` past the newest entry passes `undefined` to `updateCommandLine`,
  which empties the input. No empty string is returned.
- Free typing does not reset the history marker. Only Enter calls `reset`.
- There is no completion algorithm in this file. `autoComplete` is an outside
  global, so the model takes it as a function parameter. Its first argument
  is `words.slice(-1)`, a one-element array, not a string.
- On a single-word line the Tab rewrite always appends a space, whether or
  not the completion succeeded.

## Model

| member | source | states |
|---|---|---|
| `JsString.Split` | jquery.simpleTerminal.js:172 | `split(' ')` gives one more piece than there are spaces, and no piece contains a space |
| `JsString.Join` | jquery.simpleTerminal.js:192 | `join(' ')` starts with the first word and puts one separator between each pair; `JoinSplit`, `SplitJoin` and `JoinSnoc` relate it to `split(' ')` and to appending a word |
| `JsString.ReplaceFirst` | jquery.simpleTerminal.js:279 | `replace` leaves a string without the pattern unchanged, and otherwise swaps one character for the replacement; `ReplaceFirstAbsent` and `ReplaceFirstAt` state which occurrence |
| `JsString.IndexOf` | jquery.simpleTerminal.js:279 | the position found holds the character with none before it, or -1 exactly when the character is absent |
| `JsString.SplitAtSpace` | jquery.simpleTerminal.js:172 | splitting `a + " " + t` gives the pieces of `a` followed by the pieces of `t` |
| `JsString.SplitWord` | jquery.simpleTerminal.js:172 | a word without spaces splits into itself alone |
| `JsString.JoinSplit` | jquery.simpleTerminal.js:192 | joining the pieces of `split(' ')` with spaces gives back the original line |
| `JsString.SplitJoin` | jquery.simpleTerminal.js:192 | splitting space-free words joined with spaces gives back the words |
| `JsString.JoinSnoc` | jquery.simpleTerminal.js:192 | joining one more word appends a space and that word |
| `JsString.ReplaceFirstAbsent` | jquery.simpleTerminal.js:279 | `replace` leaves a string without the pattern unchanged |
| `JsString.ReplaceFirstAt` | jquery.simpleTerminal.js:279 | `replace` rewrites only the first occurrence and keeps everything after it verbatim, later occurrences included |
| `History.At` | jquery.simpleTerminal.js:101-107 | reading `items[marker]` is defined exactly when the marker is on an entry, and then gives that entry; otherwise `undefined` |
| `History.Recent` | jquery.simpleTerminal.js:91 | the kept tail has length `min(|s|, n)` |
| `History.Appended` | jquery.simpleTerminal.js:87-95 | `newItem` ends the list with the new item, keeps `min(|old|, 20)` old entries, and those are the newest ones in their old order |
| `History.InitState` | jquery.simpleTerminal.js:85 | `init` keeps the given items and parks the marker at the end of them |
| `History.ResetState` | jquery.simpleTerminal.js:110-112 | `reset` keeps the items and parks the marker at the end |
| `History.PreviousStep` | jquery.simpleTerminal.js:98-103 | with the marker above 0 it steps back and shows that entry; at 0 nothing changes and nothing is shown; items unchanged, marker kept in range |
| `History.NextStep` | jquery.simpleTerminal.js:104-109 | before the end it steps forward and shows the entry reached, or `undefined` on reaching the end; at the end nothing changes; items unchanged, marker kept in range |
| `History.UpsNewestFirst` | jquery.simpleTerminal.js:98-103 | k presses of Up show the entries below the marker newest first, and nothing once the oldest is reached |
| `History.DownsOldestFirst` | jquery.simpleTerminal.js:104-109 | k presses of Down show the entries above the marker oldest first, then `undefined` once, then nothing |
| `History.AppendedIsRecent` | jquery.simpleTerminal.js:89-94 | clipping to 20 then pushing keeps exactly the 21 most recent entries |
| `History.RecentOfRecent` | jquery.simpleTerminal.js:91 | taking the newest n entries twice is the same as taking them once |
| `History.CommitAllIsRecent` | jquery.simpleTerminal.js:87-95 | after one or more commits the history is exactly the 21 most recent lines in submission order, so it never exceeds 21 |
| `History.CommandHistory.constructor` | jquery.simpleTerminal.js:71-73 | the history object starts with no items and marker 0 |
| `History.CommandHistory.Init` | jquery.simpleTerminal.js:74-86 | an empty history takes the saved entries; the marker is parked at the end |
| `History.CommandHistory.NewItem` | jquery.simpleTerminal.js:87-97 | the items become `Appended(old items, item)`; the marker is untouched |
| `History.CommandHistory.Previous` | jquery.simpleTerminal.js:98-103 | the new state and the value shown are those of `PreviousStep` |
| `History.CommandHistory.Next` | jquery.simpleTerminal.js:104-109 | the new state and the value shown are those of `NextStep` |
| `History.CommandHistory.Reset` | jquery.simpleTerminal.js:110-112 | the new state is that of `ResetState` |
| `Output.Escape` | jquery.simpleTerminal.js:279 | the chained `replace` lengthens the text by 3 for each kind of bracket present, since only the first `<` and the first `>` are rewritten; the five `Escape*` lemmas give the exact result |
| `Output.EscapeNoBrackets` | jquery.simpleTerminal.js:279 | error text without brackets is stored unchanged |
| `Output.EscapeLessFirst` | jquery.simpleTerminal.js:279 | when the first `<` precedes the first `>`, exactly those two are escaped and later brackets are kept |
| `Output.EscapeGreaterFirst` | jquery.simpleTerminal.js:279 | when the first `>` precedes the first `<`, exactly those two are escaped and later brackets are kept |
| `Output.EscapeOnlyLess` | jquery.simpleTerminal.js:279 | with no `>`, only the first `<` is escaped |
| `Output.EscapeOnlyGreater` | jquery.simpleTerminal.js:279 | with no `<`, only the first `>` is escaped |
| `Output.Terminal.constructor` | jquery.simpleTerminal.js:236 | the output starts with no lines |
| `Output.Terminal.Clear` | jquery.simpleTerminal.js:241-243 | every line is removed, so a second clear also leaves none |
| `Output.Terminal.Echo` | jquery.simpleTerminal.js:251-260 | one line with the given text and optional class is appended; earlier lines are untouched |
| `Output.Terminal.Success` | jquery.simpleTerminal.js:267-269 | appends the text with the class `success` |
| `Output.Terminal.Error` | jquery.simpleTerminal.js:276-281 | appends the escaped text with the class `error` |
| `TabCompletion.Candidates` | jquery.simpleTerminal.js:177-185 | with a word before the last one the candidates are the file names, otherwise the command names |
| `TabCompletion.CompleteLine` | jquery.simpleTerminal.js:172-197 | a single-word line always comes back ending in a space; `CompleteLineShape`, `CompleteLineWords`, `CompleteLineReplacesLastWord` and `CompleteLineNoAnswer` give the rest of its behaviour |
| `TabCompletion.CompleteLineShape` | jquery.simpleTerminal.js:172-197 | the rebuilt line is the earlier words joined as they were, a space, then the answer (or the old last word when the answer is empty); a single word gets one trailing space instead |
| `TabCompletion.CompleteLineNoAnswer` | jquery.simpleTerminal.js:187-197 | with an empty answer the line is unchanged, apart from the trailing space added after a single word |
| `TabCompletion.CompleteLineWords` | jquery.simpleTerminal.js:172-197 | splitting the rebuilt line gives the earlier words verbatim, the pieces of the new last word, and an empty word after the trailing space of a single-word line |
| `TabCompletion.CompleteLineReplacesLastWord` | jquery.simpleTerminal.js:187-192 | an answer without spaces replaces exactly the last word and nothing else |
| `Session.LineText` | jquery.simpleTerminal.js:213-228 | `updateCommandLine(undefined)` empties the line; a defined text is shown as is |
| `Session.PromptOf` | jquery.simpleTerminal.js:39-47 | the prompt defaults to `$`; a custom prompt is kept as given; either way the plugin adds exactly one trailing space |
| `Session.EchoLines` | jquery.simpleTerminal.js:284-288 | the intro loop gives one untagged line per entry, in order |
| `Session.IntroLines` | jquery.simpleTerminal.js:284-288 | without an intro nothing is echoed; with one, one untagged line per entry, in order |
| `Session.SimpleTerminal.constructor` | jquery.simpleTerminal.js:37-288 | at start-up the prompt gets its trailing space (line 47), the input is emptied (line 64), `init` runs (line 116), so the history holds the saved entries with the marker at the end, and the output is exactly the intro lines in order |
| `Session.SimpleTerminal.Up` | jquery.simpleTerminal.js:128-132 | above 0 the marker drops by one and the line becomes that entry; at 0 nothing changes; items unchanged |
| `Session.SimpleTerminal.Down` | jquery.simpleTerminal.js:135-139 | before the end the marker rises by one and the line becomes that entry, or empty when the end is reached; at the end nothing changes; items unchanged |
| `Session.SimpleTerminal.Enter` | jquery.simpleTerminal.js:148-166 | a non-empty line appends one untagged `prompt + " " + line`, clears the input, records one callback call with the line (which sees the echo and the cleared input), and commits the line; an empty line appends only `prompt + " "`; the marker finally equals the item count |
| `Session.SimpleTerminal.Tab` | jquery.simpleTerminal.js:169-199 | the line becomes the Tab rewrite of the old line, with the command names and file names as candidates |

## Left out

- Cookie persistence (`$.cookie`, lines 76-82 and 96). `init` takes the
  decoded saved entries as a parameter, and `newItem` does not write them back.
- DOM construction, focus handling, CSS classes and scrolling (lines 50-65,
  119-121, 252-259). Echoed text is stored as given. Its interpretation as
  HTML by `.html(line)` is not modelled.
- The per-character `<span>` rendering, the `&nbsp;` substitution and the
  caret timer in `updateCommandLine` (lines 209-233). Only the rule that
  `undefined` empties the line is kept.
- The 30 ms throttle on the arrow keys (line 124). This is event timing.
- `autoComplete`, `os.files.list()` and the `commands` registry are globals
  that this file does not define. They become parameters of `Tab`: the
  completer, the file names, and the command names in enumeration order.
- The command callback's own actions. The callback is opaque, so the model
  only records each call, with its argument and the output and input it
  sees. Any `echo`, `success`, `error` or `clear` the callback makes touches
  only the output. The history commit and reset that follow touch only the
  history. So the callback's writes can be replayed by calling the
  `Terminal` methods after `Enter`. This holds only for a callback that
  returns.
- `Session.SimpleTerminal.Enter`: does not model a command callback that
  throws. In the source, an exception at line 157 ends the key handler. The
  line has then been echoed and cleared, but `newItem` (line 158) and
  `reset` (line 164) never run. The line is missing from the history and
  the marker stays where it was. The model's `Enter` always commits and
  resets after the call, because the callback is opaque.
- An intro given as a single string. The loop would echo it one character
  per line. The model takes the intro as a sequence of lines.
- `replace` treats `$` sequences in the replacement string specially. The
  replacements used (`&lt;`, `&gt;`) contain none, so `ReplaceFirst` does
  not model this.
- `History.CommandHistory.NewItem` alone does not keep the marker in range. If
  the saved history held more than 21 entries and the marker was past the
  21st, the marker is left out of range. `Enter` calls `reset` straight
  after, so the terminal's invariant holds after every key.

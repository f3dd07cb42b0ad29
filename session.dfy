/**
 * One terminal instance: the prompt, the command line, the history, the
 * output, and the calls made to the user's command callback.
 */
module Session {
  import opened Wrappers
  import opened History
  import opened Output
  import opened TabCompletion

  const DefaultPrompt := "$"

  /**
   * One call of the command callback: the command it was given, and the
   * output and command line as they stood when it ran.
   */
  datatype Dispatch = Dispatch(command: string, screen: seq<Line>, input: string)

  /** `updateCommandLine`: `undefined` clears the line. */
  function LineText(v: Lookup): (text: string)
    ensures v.Undefined? ==> text == ""
    ensures v.Defined? ==> text == v.value
  {
    match v
    case Undefined => ""
    case Defined(s) => s
  }

  /** The prompt setting with the space the plugin appends to it. */
  function PromptOf(option: Option<string>): (p: string)
    ensures |p| >= 1 && p[|p| - 1] == ' '
    ensures option.None? ==> p == "$ "
    ensures option.Some? ==> p == option.value + " "
  {
    (if option.Some? then option.value else DefaultPrompt) + " "
  }

  /** The untagged lines echoed for the intro entries, in order. */
  function EchoLines(texts: seq<string>): (r: seq<Line>)
    ensures |r| == |texts|
    ensures forall i :: 0 <= i < |texts| ==> r[i] == Line(texts[i], None)
  {
    if texts == [] then [] else EchoLines(texts[..|texts| - 1]) + [Line(texts[|texts| - 1], None)]
  }

  /** The output at start-up: one untagged line per intro entry, none without an intro. */
  function IntroLines(intro: Option<seq<string>>): (r: seq<Line>)
    ensures intro.None? ==> r == []
    ensures intro.Some? ==> |r| == |intro.value|
    ensures intro.Some? ==> forall i :: 0 <= i < |intro.value| ==> r[i] == Line(intro.value[i], None)
  {
    if intro.Some? then EchoLines(intro.value) else []
  }

  class SimpleTerminal {
    const prompt: string
    const history: CommandHistory
    const terminal: Terminal
    /** The text of the command input. */
    var line: string
    /** Every call made to the command callback, oldest first. */
    var dispatched: seq<Dispatch>

    ghost predicate Valid()
      reads this, history
    {
      history.Valid()
    }

    /**
     * `$.fn.simpleTerminal(options)`: the prompt gets its trailing space, the
     * history takes the saved entries, the input is emptied and the intro
     * lines are echoed one by one.
     */
    constructor (promptOption: Option<string>, intro: Option<seq<string>>, saved: seq<string>)
      ensures Valid() && fresh(history) && fresh(terminal)
      ensures prompt == PromptOf(promptOption)
      ensures history.items == saved && history.marker == |saved|
      ensures terminal.lines == IntroLines(intro)
      ensures line == "" && dispatched == []
    {
      prompt := PromptOf(promptOption);
      var h := new CommandHistory();
      h.Init(saved);
      history := h;
      line := "";
      dispatched := [];
      var t := new Terminal();
      if intro.Some? {
        var texts := intro.value;
        for i := 0 to |texts|
          invariant t.lines == EchoLines(texts[..i])
          invariant h.items == saved && h.marker == |saved|
        {
          t.Echo(texts[i], None);
          assert texts[..i + 1][..i] == texts[..i];
        }
        assert texts[..|texts|] == texts;
      }
      terminal := t;
    }

    /** Up arrow: `previous`, then the line shows the entry reached. */
    method Up()
      requires Valid()
      modifies this`line, history
      ensures Valid() && history.items == old(history.items)
      ensures old(history.marker) > 0 ==>
                history.marker == old(history.marker) - 1 && line == history.items[history.marker]
      ensures old(history.marker) == 0 ==> history.marker == 0 && line == old(line)
    {
      var shown := history.Previous();
      if shown.Some? {
        line := LineText(shown.value);
      }
    }

    /**
     * Down arrow: `next`, then the line shows the entry reached, or becomes
     * empty when the marker has just moved past the newest entry.
     */
    method Down()
      requires Valid()
      modifies this`line, history
      ensures Valid() && history.items == old(history.items)
      ensures old(history.marker) < |history.items| ==>
                history.marker == old(history.marker) + 1 &&
                line == (if history.marker < |history.items| then history.items[history.marker] else "")
      ensures old(history.marker) == |history.items| ==>
                history.marker == |history.items| && line == old(line)
    {
      var shown := history.Next();
      if shown.Some? {
        line := LineText(shown.value);
      }
    }

    /**
     * Enter. A non-empty line is echoed after the prompt and one more space,
     * the input is cleared, the callback is called with the line, and the
     * line is committed to the history. An empty line only echoes the
     * prompt and a space. Either way the history marker is reset.
     */
    method Enter()
      requires Valid()
      modifies this, history, terminal
      ensures Valid()
      ensures old(line) != "" ==>
                terminal.lines == old(terminal.lines) + [Line(prompt + " " + old(line), None)] &&
                line == "" &&
                dispatched == old(dispatched) + [Dispatch(old(line), terminal.lines, "")] &&
                history.items == Appended(old(history.items), old(line))
      ensures old(line) == "" ==>
                terminal.lines == old(terminal.lines) + [Line(prompt + " ", None)] &&
                line == "" &&
                dispatched == old(dispatched) &&
                history.items == old(history.items)
      ensures history.marker == |history.items|
    {
      if line != "" {
        var commandVal := line;
        terminal.Echo(prompt + " " + commandVal, None);
        line := "";
        dispatched := dispatched + [Dispatch(commandVal, terminal.lines, line)];
        history.NewItem(commandVal);
      } else {
        terminal.Echo(prompt + " ", None);
      }
      history.Reset();
    }

    /**
     * Tab: the line is rebuilt around the completer's answer. The names of
     * the registered commands and the current file list are passed in.
     */
    method Tab(commandNames: seq<string>, fileNames: seq<string>, complete: Completer)
      modifies this`line
      ensures line == CompleteLine(old(line), commandNames, fileNames, complete)
    {
      line := CompleteLine(line, commandNames, fileNames, complete);
    }
  }
}

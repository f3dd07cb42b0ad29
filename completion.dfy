/**
 * The Tab key: the command line is split into words, the last word is
 * offered to an external completer together with a candidate list, and the
 * line is rebuilt around whatever the completer returns.
 */
module TabCompletion {
  import opened JsString

  /**
   * The external `autoComplete(currWord, items)`. Its first argument is
   * `words.slice(-1)`, a one-element array holding the last word; what it
   * computes is not part of this model.
   */
  type Completer = (seq<string>, seq<string>) -> string

  function LastWord(words: seq<string>): string
    requires |words| >= 1
  {
    words[|words| - 1]
  }

  /**
   * The candidates offered: the file names when some word precedes the last
   * one, the command names when the line is a single word.
   */
  function Candidates(words: seq<string>, commandNames: seq<string>, fileNames: seq<string>): (r: seq<string>)
    ensures |words| > 1 ==> r == fileNames
    ensures |words| <= 1 ==> r == commandNames
  {
    if |words| > 1 then fileNames else commandNames
  }

  /** What the completer answers for this line. */
  function Answer(input: string, commandNames: seq<string>, fileNames: seq<string>, complete: Completer): string
  {
    var words := Split(input);
    complete([LastWord(words)], Candidates(words, commandNames, fileNames))
  }

  /** The word that ends the rebuilt line: the answer when it is non-empty. */
  function NewLastWord(input: string, commandNames: seq<string>, fileNames: seq<string>, complete: Completer): string
  {
    var answer := Answer(input, commandNames, fileNames, complete);
    if |answer| > 0 then answer else LastWord(Split(input))
  }

  /** The line written back by the Tab branch of the key handler. */
  function CompleteLine(input: string, commandNames: seq<string>, fileNames: seq<string>, complete: Completer): (output: string)
    ensures |Split(input)| == 1 ==> |output| >= 1 && output[|output| - 1] == ' '
  {
    var words := Split(input);
    var prevWords := words[..|words| - 1];
    var cmdComplete := complete(words[|words| - 1..], Candidates(words, commandNames, fileNames));
    var newWords := if |cmdComplete| > 0 then words[|words| - 1 := cmdComplete] else words;
    Join(newWords) + (if |prevWords| == 0 then " " else "")
  }

  /**
   * The rebuilt line is the earlier words joined as they were, then the new
   * last word; a single-word line gets one trailing space.
   */
  lemma CompleteLineShape(input: string, commandNames: seq<string>, fileNames: seq<string>, complete: Completer)
    ensures var words := Split(input);
            var w := NewLastWord(input, commandNames, fileNames, complete);
            CompleteLine(input, commandNames, fileNames, complete)
              == if |words| == 1 then w + " " else Join(words[..|words| - 1]) + " " + w
  {
    var words := Split(input);
    var n := |words|;
    assert words[n - 1..] == [LastWord(words)];
    var w := NewLastWord(input, commandNames, fileNames, complete);
    var newWords := words[..n - 1] + [w];
    assert newWords == (if |Answer(input, commandNames, fileNames, complete)| > 0 then words[n - 1 := w] else words);
    if n > 1 {
      JoinSnoc(words[..n - 1], w);
    }
  }

  /** When the completer answers nothing, the line is kept, plus the space after a single word. */
  lemma CompleteLineNoAnswer(input: string, commandNames: seq<string>, fileNames: seq<string>, complete: Completer)
    requires Answer(input, commandNames, fileNames, complete) == ""
    ensures CompleteLine(input, commandNames, fileNames, complete)
              == input + (if |Split(input)| == 1 then " " else "")
  {
    var words := Split(input);
    assert words[|words| - 1..] == [LastWord(words)];
    JoinSplit(input);
  }

  /**
   * Read back as words, the rebuilt line holds every earlier word verbatim,
   * then the words of the new last word, then (for a single-word line) the
   * empty word after the trailing space.
   */
  lemma CompleteLineWords(input: string, commandNames: seq<string>, fileNames: seq<string>, complete: Completer)
    ensures var words := Split(input);
            var w := NewLastWord(input, commandNames, fileNames, complete);
            Split(CompleteLine(input, commandNames, fileNames, complete))
              == words[..|words| - 1] + Split(w) + (if |words| == 1 then [""] else [])
  {
    var words := Split(input);
    var n := |words|;
    var w := NewLastWord(input, commandNames, fileNames, complete);
    CompleteLineShape(input, commandNames, fileNames, complete);
    if n == 1 {
      SplitAtSpace(w, "");
      assert w + " " + "" == w + " ";
      assert words[..0] == [];
    } else {
      var prev := words[..n - 1];
      assert forall i :: 0 <= i < |prev| ==> ' ' !in prev[i];
      SplitAtSpace(Join(prev), w);
      SplitJoin(prev);
    }
  }

  /** A completion without spaces replaces exactly the last word. */
  lemma CompleteLineReplacesLastWord(input: string, commandNames: seq<string>, fileNames: seq<string>, complete: Completer)
    requires ' ' !in Answer(input, commandNames, fileNames, complete)
    ensures var words := Split(input);
            var out := Split(CompleteLine(input, commandNames, fileNames, complete));
            |out| == (if |words| == 1 then 2 else |words|) &&
            out[..|words| - 1] == words[..|words| - 1] &&
            out[|words| - 1] == NewLastWord(input, commandNames, fileNames, complete)
  {
    var words := Split(input);
    var w := NewLastWord(input, commandNames, fileNames, complete);
    assert ' ' !in w;
    CompleteLineWords(input, commandNames, fileNames, complete);
    SplitWord(w);
  }
}

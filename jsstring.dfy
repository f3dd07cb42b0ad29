/**
 * The JavaScript string built-ins the terminal relies on, restricted to the
 * way it calls them: `split(' ')`, `join(' ')`, and `replace` with a
 * one-character string pattern (which replaces the first occurrence only).
 */
module JsString {

  /** Number of occurrences of `c` in `s`. */
  function Count(s: string, c: char): nat
  {
    if |s| == 0 then 0 else (if s[0] == c then 1 else 0) + Count(s[1..], c)
  }

  /**
   * `s.split(' ')`: the pieces between single spaces. There is always one
   * more piece than there are spaces, and no piece contains a space; two
   * adjacent spaces produce an empty piece.
   */
  function Split(s: string): (words: seq<string>)
    ensures |words| == Count(s, ' ') + 1
    ensures forall i :: 0 <= i < |words| ==> ' ' !in words[i]
  {
    if |s| == 0 then [""]
    else
      var rest := Split(s[1..]);
      if s[0] == ' ' then [""] + rest
      else [[s[0]] + rest[0]] + rest[1..]
  }

  /** `words.join(' ')`: starts with the first word and has a separator between each pair. */
  function Join(words: seq<string>): (s: string)
    requires |words| >= 1
    ensures words[0] <= s
    ensures |s| >= |words| - 1 + |words[|words| - 1]|
  {
    if |words| == 1 then words[0] else words[0] + " " + Join(words[1..])
  }

  /**
   * The search inside `replace`: the position of the first `c`, or -1 when there is none.
   */
  function IndexOf(s: string, c: char): (i: int)
    ensures -1 <= i < |s|
    ensures i == -1 <==> c !in s
    ensures 0 <= i ==> s[i] == c && c !in s[..i]
  {
    if |s| == 0 then -1
    else if s[0] == c then 0
    else
      var j := IndexOf(s[1..], c);
      if j == -1 then -1
      else
        assert s[..j + 1] == [s[0]] + s[1..][..j];
        j + 1
  }

  /**
   * `s.replace(c, rep)` with a one-character string pattern: only the first
   * occurrence of `c` is replaced. (`rep` is taken literally; the callers
   * pass replacements without `$` patterns.)
   */
  function ReplaceFirst(s: string, c: char, rep: string): (r: string)
    ensures c !in s ==> r == s
    ensures c in s ==> |r| == |s| - 1 + |rep|
  {
    var i := IndexOf(s, c);
    if i < 0 then s else s[..i] + rep + s[i + 1..]
  }

  /** Splitting at a space splits the two sides independently. */
  lemma {:induction false} SplitAtSpace(a: string, t: string)
    ensures Split(a + " " + t) == Split(a) + Split(t)
  {
    if |a| == 0 {
      assert a + " " + t == [' '] + t;
      assert (a + " " + t)[1..] == t;
    } else {
      assert (a + " " + t)[1..] == a[1..] + " " + t;
      SplitAtSpace(a[1..], t);
    }
  }

  /** A string without spaces is a single piece. */
  lemma {:induction false} SplitWord(w: string)
    requires ' ' !in w
    ensures Split(w) == [w]
  {
    if |w| > 0 {
      SplitWord(w[1..]);
      assert [w[0]] + w[1..] == w;
    }
  }

  /** Joining the pieces of a split gives back the original string. */
  lemma {:induction false} JoinSplit(s: string)
    ensures Join(Split(s)) == s
  {
    if |s| > 0 {
      var rest := Split(s[1..]);
      JoinSplit(s[1..]);
      if s[0] == ' ' {
        assert ([""] + rest)[1..] == rest;
      } else {
        var words := [[s[0]] + rest[0]] + rest[1..];
        if |rest| > 1 {
          assert words[1..] == rest[1..];
          assert Join(rest) == rest[0] + " " + Join(rest[1..]);
        }
        assert [s[0]] + s[1..] == s;
      }
    }
  }

  /** Splitting joined space-free words gives back the words. */
  lemma {:induction false} SplitJoin(words: seq<string>)
    requires |words| >= 1
    requires forall i :: 0 <= i < |words| ==> ' ' !in words[i]
    ensures Split(Join(words)) == words
  {
    SplitWord(words[0]);
    if |words| > 1 {
      SplitAtSpace(words[0], Join(words[1..]));
      SplitJoin(words[1..]);
    }
  }

  /** Joining with one more word adds a space and that word at the end. */
  lemma {:induction false} JoinSnoc(words: seq<string>, w: string)
    requires |words| >= 1
    ensures Join(words + [w]) == Join(words) + " " + w
  {
    if |words| > 1 {
      assert (words + [w])[1..] == words[1..] + [w];
      JoinSnoc(words[1..], w);
    }
  }

  /** A string without `c` is left alone. */
  lemma ReplaceFirstAbsent(s: string, c: char, rep: string)
    requires c !in s
    ensures ReplaceFirst(s, c, rep) == s
  {
  }

  /**
   * The occurrence replaced is the first one: whatever follows it, later
   * occurrences included, is kept verbatim.
   */
  lemma ReplaceFirstAt(p: string, c: char, q: string, rep: string)
    requires c !in p
    ensures ReplaceFirst(p + [c] + q, c, rep) == p + rep + q
  {
  }
}

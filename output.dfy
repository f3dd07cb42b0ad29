/**
 * The terminal's output: the lines shown above the prompt, oldest first,
 * each with an optional CSS class.
 */
module Output {
  import opened Wrappers
  import opened JsString

  datatype Line = Line(text: string, cssClass: Option<string>)

  /**
   * The escaping done by `error`: the first `<` becomes `&lt;`, then the
   * first `>` of the result becomes `&gt;`. Later brackets stay as they are.
   */
  function Escape(s: string): (r: string)
    ensures |r| == |s| + (if '<' in s then 3 else 0) + (if '>' in s then 3 else 0)
  {
    var mid := ReplaceFirst(s, '<', "&lt;");
    assert '>' in mid <==> '>' in s by {
      var i := IndexOf(s, '<');
      if i >= 0 {
        assert s == s[..i] + [s[i]] + s[i + 1..];
        assert mid == s[..i] + ['&', 'l', 't', ';'] + s[i + 1..];
      }
    }
    ReplaceFirst(mid, '>', "&gt;")
  }

  /** Text without brackets is shown unchanged. */
  lemma EscapeNoBrackets(s: string)
    requires '<' !in s && '>' !in s
    ensures Escape(s) == s
  {
  }

  /** The first `<` comes before the first `>`: both are escaped, nothing else. */
  lemma EscapeLessFirst(a: string, b: string, c: string)
    requires '<' !in a && '>' !in a && '>' !in b
    ensures Escape(a + "<" + b + ">" + c) == a + "&lt;" + b + "&gt;" + c
  {
    ReplaceFirstAt(a, '<', b + ">" + c, "&lt;");
    assert a + "<" + b + ">" + c == a + ['<'] + (b + ">" + c);
    var mid := a + "&lt;" + b;
    assert '>' !in mid by {
      assert mid == a + ['&', 'l', 't', ';'] + b;
    }
    ReplaceFirstAt(mid, '>', c, "&gt;");
    assert a + "&lt;" + (b + ">" + c) == mid + ['>'] + c;
  }

  /** The first `>` comes before the first `<`: both are escaped, nothing else. */
  lemma EscapeGreaterFirst(a: string, b: string, c: string)
    requires '<' !in a && '>' !in a && '<' !in b
    ensures Escape(a + ">" + b + "<" + c) == a + "&gt;" + b + "&lt;" + c
  {
    ReplaceFirstAt(a + ">" + b, '<', c, "&lt;");
    assert a + ">" + b + "<" + c == (a + ">" + b) + ['<'] + c;
    ReplaceFirstAt(a, '>', b + "&lt;" + c, "&gt;");
    assert a + ">" + b + "&lt;" + c == a + ['>'] + (b + "&lt;" + c);
  }

  /** Only a `<` (perhaps several): the first one alone is escaped. */
  lemma EscapeOnlyLess(a: string, c: string)
    requires '<' !in a && '>' !in a && '>' !in c
    ensures Escape(a + "<" + c) == a + "&lt;" + c
  {
    ReplaceFirstAt(a, '<', c, "&lt;");
    assert a + "<" + c == a + ['<'] + c;
    var r := a + "&lt;" + c;
    assert '>' !in r by {
      assert r == a + ['&', 'l', 't', ';'] + c;
    }
    ReplaceFirstAbsent(r, '>', "&gt;");
  }

  /** Only a `>` (perhaps several): the first one alone is escaped. */
  lemma EscapeOnlyGreater(a: string, c: string)
    requires '<' !in a && '>' !in a && '<' !in c
    ensures Escape(a + ">" + c) == a + "&gt;" + c
  {
  }

  /** The `terminal` object handed to the command callback. */
  class Terminal {
    var lines: seq<Line>

    constructor ()
      ensures lines == []
    {
      lines := [];
    }

    /** `clear`: every line is removed. */
    method Clear()
      modifies this
      ensures lines == []
    {
      lines := [];
    }

    /** `echo`: one line at the end, earlier lines untouched. */
    method Echo(text: string, cssClass: Option<string>)
      modifies this
      ensures lines == old(lines) + [Line(text, cssClass)]
    {
      lines := lines + [Line(text, cssClass)];
    }

    /** `success`: an echo with the class `success`. */
    method Success(text: string)
      modifies this
      ensures lines == old(lines) + [Line(text, Some("success"))]
    {
      Echo(text, Some("success"));
    }

    /** `error`: an echo of the escaped text with the class `error`. */
    method Error(text: string)
      modifies this
      ensures lines == old(lines) + [Line(Escape(text), Some("error"))]
    {
      Echo(Escape(text), Some("error"));
    }
  }
}

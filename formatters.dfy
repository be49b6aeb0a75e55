/** Display-name formatting: "John Smith" becomes "John S.". */
module Formatters {
  import opened Wrappers
  import opened PyStr

  /** `parts[0]` on an empty `split()` result raises IndexError. */
  datatype NameError = IndexError

  function Last(ws: seq<string>): string
    requires ws != []
  {
    ws[|ws| - 1]
  }

  /** "First L." for a name of two or more words. */
  function Abbreviated(ws: seq<string>): string
    requires |ws| >= 2 && ws[|ws| - 1] != []
  {
    ws[0] + " " + [UpperChar(Last(ws)[0])] + "."
  }

  /** `format_display_name(name)`. The contract speaks of the words of the
      name itself, not of the stripped copy the code splits. */
  function FormatDisplayName(name: string): (r: Result<string, NameError>)
    ensures name == [] || Strip(name) == "Unknown" ==> r == Ok("Unknown")
    ensures name != [] && AllSpace(name) ==> r == Err(IndexError)
    ensures name != [] && Strip(name) != "Unknown" && |Words(name)| == 1 ==>
      r == Ok(Strip(name)) && Words(name)[0] == Strip(name)
    ensures Strip(name) != "Unknown" && |Words(name)| >= 2 ==>
      r == Ok(Abbreviated(Words(name)))
    ensures r.Err? <==> name != [] && AllSpace(name)
  {
    if name == [] || Strip(name) == "Unknown" then Ok("Unknown")
    else
      var parts := Words(Strip(name));
      WordsStrip(name);
      WordsEmptyIff(name);
      if |parts| < 2 then
        if parts == [] then Err(IndexError)
        else
          SingleWordIsWhole(Strip(name));
          Ok(parts[0])
      else
        Ok(parts[0] + " " + [UpperChar(parts[|parts| - 1][0])] + ".")
  }

  /** Only the first and the last word contribute: two names that agree on
      those (and are not "Unknown") format the same. */
  lemma MiddleWordsIgnored(a: string, b: string)
    requires Strip(a) != "Unknown" && Strip(b) != "Unknown"
    requires |Words(a)| >= 2 && |Words(b)| >= 2
    requires Words(a)[0] == Words(b)[0] && Last(Words(a)) == Last(Words(b))
    ensures FormatDisplayName(a) == FormatDisplayName(b)
  {
  }

  /** The abbreviated form: the first word, one space, the upper-cased
      initial of the last word, a dot. */
  lemma AbbreviatedShape(ws: seq<string>)
    requires |ws| >= 2 && Last(ws) != []
    ensures var out := Abbreviated(ws);
      && |out| == |ws[0]| + 3 && out[..|ws[0]|] == ws[0]
      && out[|ws[0]|] == ' ' && out[|out| - 1] == '.'
      && out[|ws[0]| + 1] == UpperChar(Last(ws)[0])
  {
    var out := Abbreviated(ws);
    assert out == ws[0] + (" " + [UpperChar(Last(ws)[0])] + ".");
  }

  /** A first and a last name separated by one space: "John Smith" gives
      "John S.". */
  lemma TwoWordName(first: string, last: string)
    requires first != [] && last != [] && NoSpace(first) && NoSpace(last)
    ensures FormatDisplayName(first + " " + last)
         == Ok(first + " " + [UpperChar(last[0])] + ".")
  {
    var name := first + " " + last;
    WordsOfTwo(first, last);
    StripUnchanged(name);
    WordsOfOne("Unknown");
    assert Words(Strip(name)) != Words("Unknown");
  }

  /** The docstring's one-word example: "John" stays "John". */
  lemma ExampleOneWord()
    ensures FormatDisplayName("John") == Ok("John")
  {
    WordsOfOne("John");
    StripUnchanged("John");
  }
}

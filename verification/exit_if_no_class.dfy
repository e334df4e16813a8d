/**
 * The parser of the `@__exitIfNoClass__(name)` directive: it takes the argument the directive
 * pattern captured, strips one layer of parentheses and at most one quote at each end, and
 * either emits an empty token (the class loads) or signals the template to exit (it does not).
 * The regex match and the class loader are inputs of the model.
 */
module ExitIfNoClass {
  import opened Wrappers

  predicate IsQuote(c: char) {
    c == '"' || c == '\''
  }

  /** `s.startsWith("(")`. */
  predicate OpensParen(s: string) {
    |s| > 0 && s[0] == '('
  }

  /**
   * The parenthesis step: an argument starting with `(` loses its first and its last
   * character. For the one-character argument `(` the second `substring` has a negative end
   * index and throws; that is the `None` case.
   */
  function Unparen(s: string): (r: Option<string>)
    ensures r.None? <==> s == "("
    ensures r.Some? && OpensParen(s) ==> |s| >= 2 && r.value == s[1..|s| - 1]
    ensures !OpensParen(s) ==> r == Some(s)
  {
    if OpensParen(s) then
      if |s| == 1 then None else Some(s[1..|s| - 1])
    else Some(s)
  }

  /** Drops one leading `"` or `'`, if there is one. */
  function StripLeadingQuote(s: string): (r: string)
    ensures |s| > 0 && IsQuote(s[0]) ==> s == [s[0]] + r
    ensures !(|s| > 0 && IsQuote(s[0])) ==> r == s
    ensures |s| - |r| <= 1 && r == s[|s| - |r|..]
  {
    if |s| > 0 && IsQuote(s[0]) then s[1..] else s
  }

  /** Drops one trailing `"` or `'`, if there is one. */
  function StripTrailingQuote(s: string): (r: string)
    ensures |s| > 0 && IsQuote(s[|s| - 1]) ==> s == r + [s[|s| - 1]]
    ensures !(|s| > 0 && IsQuote(s[|s| - 1])) ==> r == s
    ensures |s| - |r| <= 1 && r == s[..|r|]
  {
    if |s| > 0 && IsQuote(s[|s| - 1]) then s[..|s| - 1] else s
  }

  /**
   * The whole normalisation: parentheses first, then the leading quote, then the trailing
   * quote. At most four characters are cut from the argument.
   */
  function Normalize(group: string): (r: Option<string>)
    ensures r.None? <==> group == "("
    ensures r.Some? ==> |group| - 4 <= |r.value| <= |group|
  {
    match Unparen(group)
    case None => None
    case Some(u) => Some(StripTrailingQuote(StripLeadingQuote(u)))
  }

  /** A class name with an optional quote before and after it. */
  function Quoted(name: string, leading: Option<char>, trailing: Option<char>): string {
    Chars(leading) + name + Chars(trailing)
  }

  /** An argument the directive accepts: a possibly quoted class name, possibly in parentheses. */
  function Wrap(name: string, leading: Option<char>, trailing: Option<char>, parens: bool): string {
    if parens then "(" + Quoted(name, leading, trailing) + ")" else Quoted(name, leading, trailing)
  }

  /** An optional character as a sequence of length at most one. */
  function Chars(c: Option<char>): string {
    if c.Some? then [c.value] else []
  }

  /** The leading-quote step removes the opening quote, or nothing when the name comes first. */
  lemma StripLeadingOfQuoted(name: string, leading: Option<char>, rest: string)
    requires leading.Some? ==> IsQuote(leading.value)
    requires (name != [] && !IsQuote(name[0])) || leading.Some?
    ensures StripLeadingQuote(Chars(leading) + name + rest) == name + rest
  {
    var s := Chars(leading) + name + rest;
    if leading.Some? {
      assert s[0] == leading.value;
      assert s[1..] == name + rest;
    } else {
      assert s == name + rest;
      assert s[0] == name[0];
    }
  }

  /** The trailing-quote step removes the closing quote, or nothing when the name comes last. */
  lemma StripTrailingOfQuoted(name: string, trailing: Option<char>)
    requires trailing.Some? ==> IsQuote(trailing.value)
    requires name != [] ==> !IsQuote(name[|name| - 1])
    ensures StripTrailingQuote(name + Chars(trailing)) == name
  {
    if trailing.Some? {
      assert (name + Chars(trailing))[..|name|] == name;
    } else {
      assert name + Chars(trailing) == name;
    }
  }

  /** The quote steps remove exactly the optional quotes around a name that has none of its own. */
  lemma StripQuotesOfQuoted(name: string, leading: Option<char>, trailing: Option<char>)
    requires leading.Some? ==> IsQuote(leading.value)
    requires trailing.Some? ==> IsQuote(trailing.value)
    requires name != [] ==> !IsQuote(name[0]) && !IsQuote(name[|name| - 1])
    ensures StripTrailingQuote(StripLeadingQuote(Quoted(name, leading, trailing))) == name
  {
    assert Quoted(name, leading, trailing) == Chars(leading) + name + Chars(trailing);
    if name == [] && leading.None? {
      assert Quoted(name, leading, trailing) == Chars(trailing);
    } else {
      StripLeadingOfQuoted(name, leading, Chars(trailing));
      StripTrailingOfQuoted(name, trailing);
    }
  }

  /** The parenthesis step removes exactly the parentheses the wrapping added. */
  lemma UnparenWrap(name: string, leading: Option<char>, trailing: Option<char>, parens: bool)
    requires leading.Some? ==> IsQuote(leading.value)
    requires trailing.Some? ==> IsQuote(trailing.value)
    requires !parens && leading.None? ==> !OpensParen(name)
    ensures Unparen(Wrap(name, leading, trailing, parens)) == Some(Quoted(name, leading, trailing))
  {
    var quoted := Quoted(name, leading, trailing);
    if parens {
      assert ("(" + quoted + ")")[1..|quoted| + 1] == quoted;
    } else if leading.Some? {
      assert quoted[0] == leading.value;
    } else if name != [] {
      assert quoted[0] == name[0];
    } else if trailing.Some? {
      assert quoted == [trailing.value];
    }
  }

  /**
   * Normalisation undoes the wrapping: a class name that neither starts nor ends with a quote
   * comes back unchanged from any wrapping in parentheses and quotes, and the two quotes need
   * not match.
   */
  lemma NormalizeUnwraps(name: string, leading: Option<char>, trailing: Option<char>, parens: bool)
    requires leading.Some? ==> IsQuote(leading.value)
    requires trailing.Some? ==> IsQuote(trailing.value)
    requires name != [] ==> !IsQuote(name[0]) && !IsQuote(name[|name| - 1])
    requires !parens && leading.None? ==> !OpensParen(name)
    ensures Normalize(Wrap(name, leading, trailing, parens)) == Some(name)
  {
    UnparenWrap(name, leading, trailing, parens);
    StripQuotesOfQuoted(name, leading, trailing);
  }

  /**
   * Only one quote goes at each end: whatever lies between an opening and a closing quote
   * comes out unchanged, quotes of its own included (`""a""` becomes `"a"`).
   */
  lemma OneQuoteEachEnd(inner: string, open: char, close: char)
    requires IsQuote(open) && IsQuote(close)
    ensures Normalize([open] + inner + [close]) == Some(inner)
  {
    var s := [open] + inner + [close];
    assert s[0] == open && s[1..] == inner + [close];
    assert (inner + [close])[..|inner|] == inner;
  }

  /** The worked example: for `@__exitIfNoClass__(java.lang.String)` the class name is `java.lang.String`. */
  lemma WorkedExample()
    ensures Normalize("(" + "java.lang.String" + ")") == Some("java.lang.String")
  {
    var name := "java.lang.String";
    assert name[0] == 'j' && name[|name| - 1] == 'g';
    assert Quoted(name, None, None) == name;
    NormalizeUnwraps(name, None, None, true);
  }

  /** The message of the parse error; the source reuses the `@debug` parser's text. */
  const UsageMessage: string := "error parsing @debug, correct usage: @debug(\"msg\", args...)"

  /** What the directive pattern matched at the cursor: its full length and its first group. */
  datatype Match = Match(length: nat, group: string)

  /** How `go()` ends. */
  datatype Outcome =
    | EmptyToken                                           // the class loads: an empty token
    | Exit                                                 // it does not: `ExitInstruction`
    | ParseError(template: string, line: int, message: string) // no match: `ParseException`
    | IndexOutOfBounds                                     // the argument was the single character `(`

  /** The parser's view of the template: its text and how far it has read. */
  class DirectiveParser {
    /** The template class the parse errors name. */
    const template: string
    /** The template source. */
    const source: string
    /** The parse position; `remain()` is `source[cursor..]`. */
    var cursor: nat

    ghost predicate Valid()
      reads this
    {
      cursor <= |source|
    }

    constructor (template: string, source: string, cursor: nat)
      requires cursor <= |source|
      ensures Valid()
      ensures this.template == template && this.source == source && this.cursor == cursor
    {
      this.template := template;
      this.source := source;
      this.cursor := cursor;
    }

    /**
     * `go()`: without a match, a parse error at the current line and nothing consumed; with
     * one, the cursor moves past the whole match, and the normalised argument decides between
     * the empty token and the exit signal.
     */
    method Go(m: Option<Match>, loadable: string -> bool, line: int) returns (r: Outcome)
      requires Valid()
      requires m.Some? ==> m.value.length <= |source| - cursor
      modifies this`cursor
      ensures Valid()
      ensures m.None? ==> r == ParseError(template, line, UsageMessage) && cursor == old(cursor)
      ensures m.Some? ==> cursor == old(cursor) + m.value.length
      ensures m.Some? && Normalize(m.value.group).None? ==> r == IndexOutOfBounds
      ensures m.Some? && Normalize(m.value.group).Some? ==>
                r == (if loadable(Normalize(m.value.group).value) then EmptyToken else Exit)
    {
      if m.None? {
        return ParseError(template, line, UsageMessage);
      }
      cursor := cursor + m.value.length;
      var name := Normalize(m.value.group);
      if name.None? {
        return IndexOutOfBounds;
      }
      if loadable(name.value) {
        return EmptyToken;
      }
      return Exit;
    }
  }
}

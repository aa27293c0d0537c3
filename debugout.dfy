/** The debug-log formatter: `debugLogi` appends a format string to a text stream with each `%`
    replaced by the next argument, recursing once per argument consumed; the overload with no
    argument left appends the rest of the format verbatim and a newline. Arguments are taken as
    the text `operator<<` renders them as. */
module DebugOut {

  // ---------------------------------------------------------------------------
  // The formatter, as values
  // ---------------------------------------------------------------------------

  /** what `<<` writes for a `const char*`: the characters before the first NUL */
  function CString(s: string): (r: string)
    ensures |r| <= |s| && r == s[..|r|]
    ensures '\0' !in r
    ensures |r| < |s| ==> s[|r|] == '\0'
  {
    if |s| == 0 || s[0] == '\0' then "" else [s[0]] + CString(s[1..])
  }

  /** the text `debugLogi(format, text, args...)` appends: with no argument left, the C string
      and a newline; otherwise characters are copied up to the first `%`, which is replaced by the
      first argument before the rest of the format is handled with the remaining arguments; a
      format that ends (at a NUL or its end) before a `%` drops the arguments and the newline */
  function Log(format: string, args: seq<string>): string
    decreases |format|
  {
    if |args| == 0 then CString(format) + "\n"
    else if |format| == 0 || format[0] == '\0' then ""
    else if format[0] == '%' then args[0] + Log(format[1..], args[1..])
    else [format[0]] + Log(format[1..], args)
  }

  // ---------------------------------------------------------------------------
  // A reference definition: split at `%`, then interleave
  // ---------------------------------------------------------------------------

  /** the number of occurrences of c in s */
  function Count(c: char, s: string): nat {
    if |s| == 0 then 0 else (if s[0] == c then 1 else 0) + Count(c, s[1..])
  }

  /** the pieces of s between its `%` signs: one more piece than there are `%` signs, none of
      them holding a `%` */
  function Split(s: string): (pieces: seq<string>)
    ensures |pieces| == Count('%', s) + 1
  {
    if |s| == 0 then [""]
    else if s[0] == '%' then [""] + Split(s[1..])
    else
      var rest := Split(s[1..]);
      [[s[0]] + rest[0]] + rest[1..]
  }

  /** the pieces with the arguments between them: pieces[0] + args[0] + pieces[1] + ... */
  function Interleave(pieces: seq<string>, args: seq<string>): string
    requires |pieces| == |args| + 1
  {
    if |args| == 0 then pieces[0] else pieces[0] + args[0] + Interleave(pieces[1..], args[1..])
  }

  /** gluing the pieces back together with `%` gives the string back */
  function Join(pieces: seq<string>): string
    requires |pieces| >= 1
  {
    if |pieces| == 1 then pieces[0] else pieces[0] + "%" + Join(pieces[1..])
  }

  // ---------------------------------------------------------------------------
  // Properties
  // ---------------------------------------------------------------------------

  /** a string with no NUL is its own C string */
  lemma {:induction false} CStringWithoutNul(s: string)
    requires '\0' !in s
    ensures CString(s) == s
  {
    if |s| > 0 {
      assert '\0' !in s[1..];
      CStringWithoutNul(s[1..]);
    }
  }

  /** splitting loses nothing: the pieces joined by `%` are the string itself */
  lemma {:induction false} SplitJoin(s: string)
    ensures Join(Split(s)) == s
  {
    if |s| > 0 {
      SplitJoin(s[1..]);
      var rest := Split(s[1..]);
      var pieces := Split(s);
      if s[0] == '%' {
        assert pieces == [""] + rest;
        assert pieces[0] == "" && pieces[1..] == rest;
        assert Join(pieces) == "" + "%" + Join(rest);
      } else {
        assert pieces == [[s[0]] + rest[0]] + rest[1..];
        assert pieces[0] == [s[0]] + rest[0] && pieces[1..] == rest[1..];
        JoinPrepend(s[0], rest, pieces);
      }
      assert s == [s[0]] + s[1..];
    }
  }

  /** a character put in front of the first piece comes out in front of the joined string */
  lemma JoinPrepend(c: char, pieces: seq<string>, moved: seq<string>)
    requires |pieces| >= 1 && |moved| == |pieces|
    requires moved[0] == [c] + pieces[0] && moved[1..] == pieces[1..]
    ensures Join(moved) == [c] + Join(pieces)
  {
    if |pieces| > 1 {
      var tail := Join(pieces[1..]);
      assert Join(moved) == moved[0] + "%" + tail;
      PrependRegroups([c], pieces[0], "%", tail);
    }
  }

  /** with no argument left, the format (up to a NUL) is written verbatim, `%` signs included, and
      followed by a newline */
  lemma NoArgumentsVerbatim(format: string)
    requires '\0' !in format
    ensures Log(format, []) == format + "\n"
  {
    CStringWithoutNul(format);
  }

  /** with arguments left, the characters before the first `%` are copied in order and the first
      `%` is replaced by the first argument; the rest of the format goes with the remaining
      arguments */
  lemma {:induction false} FirstPercentReplaced(pre: string, post: string, args: seq<string>)
    requires |args| > 0 && '%' !in pre && '\0' !in pre
    ensures Log(pre + "%" + post, args) == pre + args[0] + Log(post, args[1..])
  {
    if |pre| > 0 {
      assert (pre + "%" + post)[1..] == pre[1..] + "%" + post;
      FirstPercentReplaced(pre[1..], post, args);
      assert pre == [pre[0]] + pre[1..];
    } else {
      assert (pre + "%" + post)[1..] == post;
    }
  }

  /** a format without `%` and NUL copied with arguments left: the arguments are dropped and no
      newline is written */
  lemma {:induction false} SurplusArgumentsDropped(format: string, args: seq<string>)
    requires |args| > 0 && '%' !in format && '\0' !in format
    ensures Log(format, args) == format
  {
    if |format| > 0 {
      assert '%' !in format[1..] && '\0' !in format[1..];
      SurplusArgumentsDropped(format[1..], args);
      assert format == [format[0]] + format[1..];
    }
  }

  /** Count finds c exactly when c occurs */
  lemma {:induction false} CountZero(c: char, s: string)
    ensures Count(c, s) == 0 <==> c !in s
  {
    if |s| > 0 {
      CountZero(c, s[1..]);
      assert s == [s[0]] + s[1..];
    }
  }

  /** a string without `%` is a single piece */
  lemma {:induction false} SplitWithoutPercent(s: string)
    requires '%' !in s
    ensures Split(s) == [s]
  {
    if |s| > 0 {
      assert '%' !in s[1..];
      SplitWithoutPercent(s[1..]);
      assert s == [s[0]] + s[1..];
    }
  }

  /** the formatter against the reference: for a NUL-free format with k `%` signs and at least k
      arguments, the i-th `%` is replaced by the i-th argument; a newline follows exactly when
      the arguments run out with the `%` signs, and surplus arguments are dropped */
  lemma {:induction false} LogIsInterleave(format: string, args: seq<string>)
    requires '\0' !in format && Count('%', format) <= |args|
    ensures var k := Count('%', format);
      Log(format, args) == Interleave(Split(format), args[..k]) + (if k == |args| then "\n" else "")
    decreases |format|, 1
  {
    if |args| == 0 {
      CountZero('%', format);
      SplitWithoutPercent(format);
      NoArgumentsVerbatim(format);
    } else if |format| == 0 {
      assert Log(format, args) == "";
    } else if format[0] == '%' {
      LogIsInterleaveAtPercent(format, args);
    } else {
      LogIsInterleaveAtPlain(format, args);
    }
  }

  /** `LogIsInterleave` for a format that starts with `%` */
  lemma {:induction false} LogIsInterleaveAtPercent(format: string, args: seq<string>)
    requires '\0' !in format && Count('%', format) <= |args|
    requires |args| > 0 && |format| > 0 && format[0] == '%'
    ensures var k := Count('%', format);
      Log(format, args) == Interleave(Split(format), args[..k]) + (if k == |args| then "\n" else "")
    decreases |format|, 0
  {
    var k := Count('%', format);
    var tail, later := format[1..], args[1..];
    var newline := if k == |args| then "\n" else "";
    var body := Interleave(Split(tail), later[..k - 1]);
    assert Log(format, args) == args[0] + (body + newline) by {
      assert '\0' !in tail;
      assert Count('%', tail) == k - 1;
      LogIsInterleave(tail, later);
      assert (k - 1 == |later|) == (k == |args|);
    }
    assert Interleave(Split(format), args[..k]) == args[0] + body by {
      var pieces := Split(format);
      assert pieces[0] == "" && pieces[1..] == Split(tail);
      assert args[..k][1..] == later[..k - 1];
      assert Interleave(pieces, args[..k]) == pieces[0] + args[..k][0] + Interleave(pieces[1..], args[..k][1..]);
    }
  }

  /** `LogIsInterleave` for a format that starts with a character other than `%` */
  lemma {:induction false} LogIsInterleaveAtPlain(format: string, args: seq<string>)
    requires '\0' !in format && Count('%', format) <= |args|
    requires |args| > 0 && |format| > 0 && format[0] != '%'
    ensures var k := Count('%', format);
      Log(format, args) == Interleave(Split(format), args[..k]) + (if k == |args| then "\n" else "")
    decreases |format|, 0
  {
    var k := Count('%', format);
    var tail := format[1..];
    var rest := Split(tail);
    var newline := if k == |args| then "\n" else "";
    var body := Interleave(rest, args[..k]);
    assert Log(format, args) == [format[0]] + (body + newline) by {
      assert '\0' !in tail;
      assert Count('%', tail) == k;
      LogIsInterleave(tail, args);
    }
    assert Interleave(Split(format), args[..k]) == [format[0]] + body by {
      var pieces := Split(format);
      assert pieces == [[format[0]] + rest[0]] + rest[1..];
      assert pieces[0] == [format[0]] + rest[0] && pieces[1..] == rest[1..];
      InterleavePrepend(format[0], rest, pieces, args[..k]);
    }
  }

  /** a character put in front of the first piece comes out in front of the interleaving */
  lemma InterleavePrepend(c: char, pieces: seq<string>, moved: seq<string>, args: seq<string>)
    requires |pieces| == |args| + 1 && |moved| == |pieces|
    requires moved[0] == [c] + pieces[0] && moved[1..] == pieces[1..]
    ensures Interleave(moved, args) == [c] + Interleave(pieces, args)
  {
    if |args| > 0 {
      var tail := Interleave(pieces[1..], args[1..]);
      assert Interleave(moved, args) == ([c] + pieces[0]) + args[0] + tail by {
        assert Interleave(moved, args) == moved[0] + args[0] + Interleave(moved[1..], args[1..]);
      }
      assert Interleave(pieces, args) == pieces[0] + args[0] + tail;
      PrependRegroups([c], pieces[0], args[0], tail);
    }
  }

  /** the exact case: k `%` signs and k arguments give the reference substitution and a newline */
  lemma ExactArguments(format: string, args: seq<string>)
    requires '\0' !in format && Count('%', format) == |args|
    ensures Log(format, args) == Interleave(Split(format), args) + "\n"
  {
    LogIsInterleave(format, args);
    assert args[..|args|] == args;
  }

  // ---------------------------------------------------------------------------
  // The stream and the two overloads
  // ---------------------------------------------------------------------------

  /** `std::stringstream`: the text written so far */
  class TextStream {
    var contents: string

    constructor ()
      ensures contents == ""
    {
      contents := "";
    }

    /** `text << s` */
    method Append(s: string)
      modifies this
      ensures contents == old(contents) + s
    {
      contents := contents + s;
    }
  }

  /** the base overload: the format as a C string, then a newline */
  method DebugLogiBase(format: string, text: TextStream)
    modifies text
    ensures text.contents == old(text.contents) + Log(format, [])
  {
    text.Append(CString(format));
    text.Append("\n");
  }

  /** a prefix put in front of the first of three pieces of text is in front of all three */
  lemma PrependRegroups(a: string, b: string, c: string, d: string)
    ensures (a + b) + c + d == a + (b + c + d)
  {
  }

  /** regrouping four pieces of text */
  lemma ConcatAssociates(a: string, b: string, c: string, d: string)
    ensures a + b + c + d == a + (b + (c + d))
  {
  }

  /** one step of the copy loop: with arguments left, a character that is neither `%` nor NUL is
      copied and the rest of the format follows */
  lemma LogCopiesPlain(format: string, f: nat, args: seq<string>)
    requires f < |format| && format[f] != '%' && format[f] != '\0' && |args| > 0
    ensures Log(format[f..], args) == [format[f]] + Log(format[f + 1..], args)
    ensures format[..f + 1] == format[..f] + [format[f]]
  {
    assert format[f..][1..] == format[f + 1..];
  }

  /** the `%` step: the first argument is written and the rest of the format goes with the
      remaining arguments */
  lemma LogReplacesPercent(format: string, f: nat, args: seq<string>)
    requires f < |format| && format[f] == '%' && |args| > 0
    ensures Log(format[f..], args) == args[0] + Log(format[f + 1..], args[1..])
  {
    assert format[f..][1..] == format[f + 1..];
  }

  /** the overload with a value and further arguments: copies the format character by character
      until it meets a `%`, where it writes the value and hands the rest of the format and the
      further arguments to the next overload, or until the format ends */
  method DebugLogi(format: string, text: TextStream, value: string, fargs: seq<string>)
    modifies text
    ensures text.contents == old(text.contents) + Log(format, [value] + fargs)
    decreases |fargs|, 1
  {
    ghost var args := [value] + fargs;
    assert args[1..] == fargs;
    var f := 0;
    while f < |format| && format[f] != '\0'
      invariant 0 <= f <= |format|
      invariant Log(format, args) == format[..f] + Log(format[f..], args)
      invariant text.contents == old(text.contents) + format[..f]
    {
      if format[f] == '%' {
        LogReplacesPercent(format, f, args);
        text.Append(value);
        DebugLogiNext(format[f + 1..], text, fargs);
        ConcatAssociates(old(text.contents), format[..f], value, Log(format[f + 1..], fargs));
        return;
      }
      LogCopiesPlain(format, f, args);
      text.Append([format[f]]);
      f := f + 1;
    }
    assert Log(format[f..], args) == "";
  }

  /** the recursive call `debugLogi(format + 1, text, Fargs...)`: it resolves to the base overload
      when no argument is left and to the overload with a value otherwise */
  method DebugLogiNext(format: string, text: TextStream, fargs: seq<string>)
    modifies text
    ensures text.contents == old(text.contents) + Log(format, fargs)
    decreases |fargs|, 0
  {
    if |fargs| == 0 {
      DebugLogiBase(format, text);
    } else {
      DebugLogi(format, text, fargs[0], fargs[1..]);
      assert [fargs[0]] + fargs[1..] == fargs;
    }
  }
}

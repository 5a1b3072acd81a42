/** String helpers the session code relies on: the JavaScript `trim` that guards
    every typed or transcribed question, and the blank-line join that turns
    retrieved chunks into one context string. */
module Text {

  /** The characters JavaScript's String.prototype.trim strips: the ECMAScript
      WhiteSpace set (tab, vertical tab, form feed, space, no-break space, the
      byte-order mark and every Zs space separator) and the LineTerminator set
      (line feed, carriage return, line and paragraph separators). */
  predicate IsWhitespace(c: char) {
    c == '\t' || c == '\n' || c == '\U{000B}' || c == '\U{000C}' || c == '\r' || c == ' '
    || c == '\U{00A0}' || c == '\U{1680}' || ('\U{2000}' <= c <= '\U{200A}')
    || c == '\U{2028}' || c == '\U{2029}' || c == '\U{202F}' || c == '\U{205F}'
    || c == '\U{3000}' || c == '\U{FEFF}'
  }

  /** A string made of whitespace only (the empty string included). */
  predicate IsBlank(s: string) {
    forall i :: 0 <= i < |s| ==> IsWhitespace(s[i])
  }

  /** JavaScript's `s.trim()`: whitespace is cut off both ends, one character
      at a time. */
  function Trim(s: string): string
    decreases |s|
  {
    if s == [] then s
    else if IsWhitespace(s[0]) then Trim(s[1..])
    else if IsWhitespace(s[|s| - 1]) then Trim(s[..|s| - 1])
    else s
  }

  /** How many whitespace characters open `s`. */
  function LeadingBlanks(s: string): nat {
    if s != [] && IsWhitespace(s[0]) then 1 + LeadingBlanks(s[1..]) else 0
  }

  /** What `trim` returns is the slice of `s` that starts right after its
      leading whitespace. */
  lemma {:induction false} TrimSlice(s: string)
    ensures LeadingBlanks(s) + |Trim(s)| <= |s|
    ensures Trim(s) == s[LeadingBlanks(s)..LeadingBlanks(s) + |Trim(s)|]
    decreases |s|
  {
    if s == [] {
    } else if IsWhitespace(s[0]) {
      TrimSlice(s[1..]);
    } else if IsWhitespace(s[|s| - 1]) {
      var t := s[..|s| - 1];
      TrimSlice(t);
      assert LeadingBlanks(t) == 0;
    }
  }

  /** What `trim` cuts off on either side is whitespace. */
  lemma {:induction false} TrimCutsBlanks(s: string)
    ensures LeadingBlanks(s) + |Trim(s)| <= |s|
    ensures IsBlank(s[..LeadingBlanks(s)]) && IsBlank(s[LeadingBlanks(s) + |Trim(s)|..])
    decreases |s|
  {
    if s == [] {
    } else if IsWhitespace(s[0]) {
      var t := s[1..];
      TrimCutsBlanks(t);
      var n, m := LeadingBlanks(t), |Trim(t)|;
      assert s[..1 + n] == [s[0]] + t[..n];
      assert s[1 + n + m..] == t[n + m..];
    } else if IsWhitespace(s[|s| - 1]) {
      var t := s[..|s| - 1];
      TrimCutsBlanks(t);
      assert LeadingBlanks(t) == 0;
      var m := |Trim(t)|;
      assert s[m..] == t[m..] + [s[|s| - 1]];
    }
  }

  /** What `trim` keeps neither starts nor ends with whitespace. */
  lemma {:induction false} TrimUnpadded(s: string)
    ensures Trim(s) == [] || (!IsWhitespace(Trim(s)[0]) && !IsWhitespace(Trim(s)[|Trim(s)| - 1]))
    decreases |s|
  {
    if s == [] {
    } else if IsWhitespace(s[0]) {
      TrimUnpadded(s[1..]);
    } else if IsWhitespace(s[|s| - 1]) {
      TrimUnpadded(s[..|s| - 1]);
    }
  }

  /** `s.trim()` is falsy exactly when `s` is all whitespace. */
  lemma {:induction false} TrimBlankIff(s: string)
    ensures Trim(s) == [] <==> IsBlank(s)
    decreases |s|
  {
    if s == [] {
    } else if IsWhitespace(s[0]) {
      TrimBlankIff(s[1..]);
      assert IsBlank(s) <==> IsBlank(s[1..]) by {
        if IsBlank(s[1..]) {
          forall k | 0 <= k < |s| ensures IsWhitespace(s[k]) {
            if k > 0 { assert s[k] == s[1..][k - 1]; }
          }
        }
      }
    } else {
      assert !IsBlank(s);
      TrimSlice(s);
      TrimCutsBlanks(s);
    }
  }

  /** Trimming twice is trimming once. */
  lemma TrimIdempotent(s: string)
    ensures Trim(Trim(s)) == Trim(s)
  {
    TrimUnpadded(s);
  }

  /** Padding a string with whitespace on either side does not change what
      `trim` returns: trimming undoes exactly the padding and nothing more. */
  lemma {:induction false} TrimPadding(pre: string, s: string, post: string)
    requires IsBlank(pre) && IsBlank(post)
    ensures Trim(pre + s + post) == Trim(s)
    decreases |pre| + |s| + |post|
  {
    var whole := pre + s + post;
    if pre != [] {
      assert whole[1..] == pre[1..] + s + post;
      TrimPadding(pre[1..], s, post);
    } else if s == [] {
      assert whole == post;
      TrimBlankIff(post);
    } else if IsWhitespace(s[0]) {
      assert whole[1..] == [] + s[1..] + post;
      TrimPadding([], s[1..], post);
    } else if post != [] {
      var p := post[..|post| - 1];
      assert whole[0] == s[0];
      assert whole[..|whole| - 1] == [] + s + p;
      TrimPadding([], s, p);
    } else {
      assert whole == s;
    }
  }

  /** Concatenates `parts` with `sep` between neighbours, as JavaScript's
      `Array.prototype.join` does for an array of strings. */
  function Join(parts: seq<string>, sep: string): (r: string)
    ensures parts == [] ==> r == ""
    ensures |parts| == 1 ==> r == parts[0]
  {
    if |parts| == 0 then ""
    else if |parts| == 1 then parts[0]
    else parts[0] + sep + Join(parts[1..], sep)
  }

  /** Total length of a list of strings. */
  function TotalLength(parts: seq<string>): nat {
    if parts == [] then 0 else |parts[0]| + TotalLength(parts[1..])
  }

  /** The joined string holds every character of every part plus one
      separator between each pair of neighbours, nothing else. */
  lemma {:induction false} JoinLength(parts: seq<string>, sep: string)
    requires parts != []
    ensures |Join(parts, sep)| == TotalLength(parts) + (|parts| - 1) * |sep|
  {
    if |parts| > 1 {
      JoinLength(parts[1..], sep);
    }
  }

  /** Joining one more part adds one separator and that part at the end. */
  lemma {:induction false} JoinSnoc(parts: seq<string>, p: string, sep: string)
    requires parts != []
    ensures Join(parts + [p], sep) == Join(parts, sep) + sep + p
  {
    if |parts| == 1 {
      assert parts + [p] == [parts[0], p];
    } else {
      assert (parts + [p])[1..] == parts[1..] + [p];
      JoinSnoc(parts[1..], p, sep);
    }
  }

  /** The blank-line separator used for retrieved chunks. */
  const BlankLine: string := "\n\n"

  /** Position of the first blank-line separator in `s`, or |s| when there is none. */
  function BreakAt(s: string): (k: nat)
    ensures k <= |s|
    ensures k < |s| ==> k + 2 <= |s| && s[k] == '\n' && s[k + 1] == '\n'
  {
    if |s| < 2 then |s|
    else if s[0] == '\n' && s[1] == '\n' then 0
    else 1 + BreakAt(s[1..])
  }

  /** Cuts `s` at every blank-line separator, left to right. */
  function SplitBlankLines(s: string): (parts: seq<string>)
    ensures parts != []
    decreases |s|
  {
    var k := BreakAt(s);
    if k == |s| then [s] else [s[..k]] + SplitBlankLines(s[k + 2..])
  }

  /** A string without line feeds holds no separator. */
  lemma {:induction false} BreakAtSingleLine(p: string)
    requires '\n' !in p
    ensures BreakAt(p) == |p|
  {
    if |p| >= 2 {
      assert p[0] in p;
      assert forall c :: c in p[1..] ==> c in p;
      BreakAtSingleLine(p[1..]);
    }
  }

  /** The first separator after a part without line feeds is the one right after it. */
  lemma {:induction false} BreakAtAfterLine(p: string, rest: string)
    requires '\n' !in p
    ensures BreakAt(p + BlankLine + rest) == |p|
  {
    var s := p + BlankLine + rest;
    if p != [] {
      assert p[0] in p;
      assert s[1..] == p[1..] + BlankLine + rest;
      assert forall c :: c in p[1..] ==> c in p;
      BreakAtAfterLine(p[1..], rest);
    } else {
      assert s[0] == '\n' && s[1] == '\n';
    }
  }

  /** Chunks without line feeds can be read back from their blank-line join:
      joining loses nothing. */
  lemma {:induction false} SplitJoin(parts: seq<string>)
    requires parts != []
    requires forall i :: 0 <= i < |parts| ==> '\n' !in parts[i]
    ensures SplitBlankLines(Join(parts, BlankLine)) == parts
  {
    if |parts| == 1 {
      BreakAtSingleLine(parts[0]);
    } else {
      var p, rest := parts[0], Join(parts[1..], BlankLine);
      var s := p + BlankLine + rest;
      BreakAtAfterLine(p, rest);
      assert s[..|p|] == p;
      assert s[|p| + 2..] == rest;
      SplitJoin(parts[1..]);
      assert parts == [p] + parts[1..];
    }
  }
}

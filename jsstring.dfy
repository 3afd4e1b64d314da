/** The three string operations the weapon mapping applies, restricted to
    ASCII: `s.replace(/\s+/g, '')`, `s.replace(/\s+/g, '_')` and
    `s.toLowerCase()`. */
module JsString {

  /** The ASCII members of the regular-expression class `\s`:
      space, tab, line feed, vertical tab, form feed, carriage return. */
  predicate IsWhitespace(c: char) {
    c == ' ' || c == '\t' || c == '\n' || c == '\U{0B}' || c == '\U{0C}' || c == '\r'
  }

  predicate IsUpper(c: char) {
    'A' <= c <= 'Z'
  }

  predicate NoWhitespace(s: string) {
    forall i :: 0 <= i < |s| ==> !IsWhitespace(s[i])
  }

  predicate NoUpper(s: string) {
    forall i :: 0 <= i < |s| ==> !IsUpper(s[i])
  }

  /** ASCII `toLowerCase` of one character. */
  function LowerChar(c: char): (d: char)
    ensures !IsUpper(d)
    ensures IsWhitespace(d) <==> IsWhitespace(c)
    ensures !IsUpper(c) ==> d == c
  {
    if IsUpper(c) then (c as int + 32) as char else c
  }

  /** `s.toLowerCase()`: same length, no upper-case letter left, every
      other character where it was. */
  function ToLower(s: string): (r: string)
    ensures |r| == |s|
    ensures NoUpper(r)
    ensures forall i :: 0 <= i < |s| ==> r[i] == LowerChar(s[i])
    ensures NoUpper(s) ==> r == s
  {
    if s == [] then [] else [LowerChar(s[0])] + ToLower(s[1..])
  }

  /** `s.replace(/\s+/g, '')`: every whitespace character removed. */
  function StripWhitespace(s: string): (r: string)
    ensures |r| <= |s|
    ensures NoWhitespace(r)
    ensures NoWhitespace(s) ==> r == s
  {
    if s == [] then []
    else if IsWhitespace(s[0]) then StripWhitespace(s[1..])
    else [s[0]] + StripWhitespace(s[1..])
  }

  /** The suffix of `s` after its leading run of whitespace. */
  function DropWhitespace(s: string): (r: string)
    ensures |r| <= |s| && r == s[|s| - |r|..]
    ensures r == [] || !IsWhitespace(r[0])
    ensures forall i :: 0 <= i < |s| - |r| ==> IsWhitespace(s[i])
  {
    if s != [] && IsWhitespace(s[0]) then DropWhitespace(s[1..]) else s
  }

  /** `s.replace(/\s+/g, sep)` for a one-character `sep`: each maximal run
      of whitespace becomes a single `sep`. The result holds no whitespace
      as long as the separator is not whitespace itself, a string without
      whitespace comes back unchanged, and no upper-case letter appears that
      was not already there. */
  function CollapseWhitespace(s: string, sep: char): (r: string)
    requires !IsWhitespace(sep)
    ensures |r| <= |s|
    ensures NoWhitespace(r)
    ensures NoWhitespace(s) ==> r == s
    ensures NoUpper(s) && !IsUpper(sep) ==> NoUpper(r)
    decreases |s|
  {
    if s == [] then []
    else if IsWhitespace(s[0]) then
      var rest := CollapseWhitespace(DropWhitespace(s[1..]), sep);
      CleanCons(sep, rest);
      [sep] + rest
    else
      var rest := CollapseWhitespace(s[1..], sep);
      CleanCons(s[0], rest);
      CleanCons(s[0], s[1..]);
      assert s == [s[0]] + s[1..];
      [s[0]] + rest
  }

  /** Whitespace and upper case in a string with one character in front. */
  lemma CleanCons(x: char, s: string)
    ensures NoWhitespace([x] + s) <==> !IsWhitespace(x) && NoWhitespace(s)
    ensures NoUpper([x] + s) <==> !IsUpper(x) && NoUpper(s)
  {
    assert forall i :: 1 <= i < |s| + 1 ==> ([x] + s)[i] == s[i - 1];
    assert forall i :: 0 <= i < |s| ==> s[i] == ([x] + s)[i + 1];
    assert ([x] + s)[0] == x;
  }

  /** `s.toLowerCase().replace(/\s+/g, '_')`: the weapon type slug. */
  function Slug(s: string): (r: string)
    ensures NoWhitespace(r) && NoUpper(r)
  {
    CollapseWhitespace(ToLower(s), '_')
  }

  /** Stripping whitespace splits over concatenation. */
  lemma {:induction false} StripAppend(a: string, b: string)
    ensures StripWhitespace(a + b) == StripWhitespace(a) + StripWhitespace(b)
    decreases |a|
  {
    if a == [] {
      assert a + b == b;
    } else {
      assert (a + b)[1..] == a[1..] + b;
      StripAppend(a[1..], b);
    }
  }

  /** Stripping removes a single space between two whitespace-free words. */
  lemma StripSpace(a: string, b: string)
    requires NoWhitespace(a) && NoWhitespace(b)
    ensures StripWhitespace(a + [' '] + b) == a + b
  {
    StripAppend(a + [' '], b);
    StripAppend(a, [' ']);
  }

  /** A leading whitespace run contributes nothing once whitespace is stripped. */
  lemma {:induction false} StripDropWhitespace(s: string)
    ensures StripWhitespace(DropWhitespace(s)) == StripWhitespace(s)
    decreases |s|
  {
    if s != [] && IsWhitespace(s[0]) {
      StripDropWhitespace(s[1..]);
    }
  }

  /** Collapsing only turns whitespace runs into separators: removing the
      separators that collapsing emits leaves exactly the non-whitespace
      characters of the input, in order. */
  lemma {:induction false} CollapseKeepsText(s: string, sep: char)
    requires !IsWhitespace(sep)
    ensures StripWhitespace(CollapseWhitespace(s, sep)) == CollapseWhitespace(s, sep)
    ensures Remove(CollapseWhitespace(s, sep), sep) == Remove(StripWhitespace(s), sep)
    decreases |s|
  {
    if s == [] {
    } else if IsWhitespace(s[0]) {
      var t := DropWhitespace(s[1..]);
      CollapseKeepsText(t, sep);
      StripDropWhitespace(s[1..]);
      RemoveCons(sep, CollapseWhitespace(t, sep), sep);
    } else {
      CollapseKeepsText(s[1..], sep);
      RemoveCons(s[0], CollapseWhitespace(s[1..], sep), sep);
      RemoveCons(s[0], StripWhitespace(s[1..]), sep);
    }
  }

  /** Dropping the leading whitespace of a whitespace run followed by a
      non-whitespace character (or nothing) leaves exactly what follows. */
  lemma {:induction false} DropRun(w: string, b: string)
    requires forall i :: 0 <= i < |w| ==> IsWhitespace(w[i])
    requires b == [] || !IsWhitespace(b[0])
    ensures DropWhitespace(w + b) == b
    decreases |w|
  {
    if w == [] {
      assert w + b == b;
    } else {
      assert (w + b)[1..] == w[1..] + b;
      DropRun(w[1..], b);
    }
  }

  /** Collapsing works run by run: a maximal run of whitespace, however
      long, becomes exactly one separator. So "a  b" collapses to "a_b",
      not "a__b". */
  lemma CollapseLeadingRun(w: string, b: string, sep: char)
    requires !IsWhitespace(sep)
    requires w != [] && forall i :: 0 <= i < |w| ==> IsWhitespace(w[i])
    requires b == [] || !IsWhitespace(b[0])
    ensures CollapseWhitespace(w + b, sep) == [sep] + CollapseWhitespace(b, sep)
  {
    var s := w + b;
    assert s[0] == w[0];
    assert s[1..] == w[1..] + b;
    DropRun(w[1..], b);
    assert DropWhitespace(s[1..]) == b;
  }

  /** A non-whitespace character is kept as it is. */
  lemma CollapseKeepsChar(c: char, b: string, sep: char)
    requires !IsWhitespace(sep) && !IsWhitespace(c)
    ensures CollapseWhitespace([c] + b, sep) == [c] + CollapseWhitespace(b, sep)
  {
    assert ([c] + b)[1..] == b;
  }

  /** Two spaces between two other characters give one separator, so
      "a  b" becomes "a_b" and not "a__b". */
  lemma CollapseDoubleSpace(x: char, y: char, sep: char)
    requires !IsWhitespace(x) && !IsWhitespace(y) && !IsWhitespace(sep)
    ensures CollapseWhitespace([x, ' ', ' ', y], sep) == [x, sep, y]
  {
    var run, rest := [' ', ' '], [y];
    var t := run + rest;
    CollapseLeadingRun(run, rest, sep);
    assert NoWhitespace(rest);
    assert CollapseWhitespace(t, sep) == [sep, y];
    CollapseKeepsChar(x, t, sep);
    assert [x, ' ', ' ', y] == [x] + t;
  }

  /** `s` with every occurrence of `c` removed. */
  function Remove(s: string, c: char): (r: string)
    ensures |r| <= |s|
    ensures forall i :: 0 <= i < |r| ==> r[i] != c
  {
    if s == [] then [] else (if s[0] == c then [] else [s[0]]) + Remove(s[1..], c)
  }

  lemma RemoveCons(x: char, s: string, c: char)
    ensures Remove([x] + s, c) == (if x == c then [] else [x]) + Remove(s, c)
  {
    assert ([x] + s)[1..] == s;
  }

  /** The slug of a slug is itself: normalising an already normalised weapon
      type changes nothing. */
  lemma SlugIdempotent(s: string)
    ensures Slug(Slug(s)) == Slug(s)
  {
    var t := Slug(s);
    assert ToLower(t) == t;
  }
}

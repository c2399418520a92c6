/**
 * The Python string primitives the pipeline relies on: `str.lower`, `str.strip`,
 * `str.splitlines`, the `in` substring test, `str.join`, `str.replace` on one character,
 * and the truthiness of an optional string.
 */
module Text {
  import opened Wrappers
  import opened Seqs

  /** Python truthiness of an `Optional[str]`: present and non-empty. */
  predicate Truthy(o: Option<string>) {
    o.Some? && o.value != ""
  }

  /** The characters `str.isspace()` accepts, which are the ones `str.strip()` removes. */
  predicate IsSpace(c: char) {
    || c == ' '
    || ('\t' <= c <= '\r')
    || ('\U{1C}' <= c <= '\U{1F}')
    || c == '\U{85}' || c == '\U{A0}' || c == '\U{1680}'
    || ('\U{2000}' <= c <= '\U{200A}')
    || c == '\U{2028}' || c == '\U{2029}' || c == '\U{202F}' || c == '\U{205F}' || c == '\U{3000}'
  }

  /** The line boundaries `str.splitlines()` splits at (CR LF counts as two here). */
  predicate IsLineBreak(c: char) {
    || ('\n' <= c <= '\r')
    || ('\U{1C}' <= c <= '\U{1E}')
    || c == '\U{85}' || c == '\U{2028}' || c == '\U{2029}'
  }

  /** Upper-case letters of Basic Latin and Latin-1 (which `str.lower` maps 32 code points up). */
  predicate IsUpper(c: char) {
    ('A' <= c <= 'Z') || ('\U{C0}' <= c <= '\U{DE}' && c != '\U{D7}')
  }

  function LowerChar(c: char): (r: char)
    ensures !IsUpper(r)
    ensures !IsUpper(c) ==> r == c
  {
    if IsUpper(c) then (c as int + 32) as char else c
  }

  /** `str.lower()`, character by character. */
  function Lower(s: string): (r: string)
    ensures |r| == |s|
    ensures forall i :: 0 <= i < |s| ==> r[i] == LowerChar(s[i])
  {
    seq(|s|, i requires 0 <= i < |s| => LowerChar(s[i]))
  }

  lemma LowerIdempotent(s: string)
    ensures Lower(Lower(s)) == Lower(s)
  {
  }

  lemma LowerConcat(a: string, b: string)
    ensures Lower(a + b) == Lower(a) + Lower(b)
  {
  }

  /** Reference definition of `kw in text`: `kw` starts at some position of `text`. */
  ghost predicate Occurs(kw: string, text: string) {
    exists i :: 0 <= i <= |text| && kw <= text[i..]
  }

  /** A keyword that occurs in a prefix of a text occurs in the text. */
  lemma OccursInLonger(kw: string, a: string, text: string)
    requires a <= text && Occurs(kw, a)
    ensures Occurs(kw, text)
  {
    var i :| 0 <= i <= |a| && kw <= a[i..];
    assert text[i..][..|kw|] == a[i..][..|kw|];
  }

  /** Every character of an occurring keyword is a character of the text. */
  lemma OccursKeepsChars(kw: string, text: string, k: nat)
    requires Occurs(kw, text) && k < |kw|
    ensures kw[k] in text
  {
    var i :| 0 <= i <= |text| && kw <= text[i..];
    assert text[i..][k] == text[i + k];
  }

  /** `kw in text`, searched from the left; the empty keyword occurs in every text. */
  function Contains(text: string, kw: string): (r: bool)
    ensures r <==> Occurs(kw, text)
    decreases |text|
  {
    if kw <= text then assert text[0..] == text; true
    else if text == [] then false
    else OccursStep(kw, text); Contains(text[1..], kw)
  }

  lemma OccursStep(kw: string, text: string)
    requires text != [] && !(kw <= text)
    ensures Occurs(kw, text) <==> Occurs(kw, text[1..])
  {
    if Occurs(kw, text) {
      var i :| 0 <= i <= |text| && kw <= text[i..];
      assert i != 0;
      assert text[1..][i - 1..] == text[i..];
    }
    if Occurs(kw, text[1..]) {
      var j :| 0 <= j <= |text[1..]| && kw <= text[1..][j..];
      assert text[1..][j..] == text[j + 1..];
    }
  }

  /** Leading whitespace removed (`str.lstrip()`). */
  function TrimStart(s: string): (r: string)
    ensures |r| <= |s| && r == s[|s| - |r|..]
    ensures forall k :: 0 <= k < |s| - |r| ==> IsSpace(s[k])
    ensures r != [] ==> !IsSpace(r[0])
  {
    if s != [] && IsSpace(s[0]) then
      var r := TrimStart(s[1..]);
      assert s[1..][|s| - 1 - |r|..] == s[|s| - |r|..];
      r
    else s
  }

  /** Trailing whitespace removed (`str.rstrip()`). */
  function TrimEnd(s: string): (r: string)
    ensures |r| <= |s| && r == s[..|r|]
    ensures forall k :: |r| <= k < |s| ==> IsSpace(s[k])
    ensures r != [] ==> !IsSpace(r[|r| - 1])
  {
    if s != [] && IsSpace(s[|s| - 1]) then
      var r := TrimEnd(s[..|s| - 1]);
      assert s[..|s| - 1][..|r|] == s[..|r|];
      r
    else s
  }

  /** A string with no whitespace at either end. */
  predicate IsStripped(s: string) {
    s == [] || (!IsSpace(s[0]) && !IsSpace(s[|s| - 1]))
  }

  /** `r` is a stretch of `s` with only whitespace before it and only whitespace after it. */
  ghost predicate IsFramedIn(r: string, s: string) {
    exists a, b ::
      && 0 <= a <= b <= |s| && r == s[a..b]
      && (forall k :: 0 <= k < a ==> IsSpace(s[k]))
      && (forall k :: b <= k < |s| ==> IsSpace(s[k]))
  }

  /** `str.strip()`: the part of `s` between its leading and its trailing whitespace. */
  function Strip(s: string): (r: string)
    ensures IsStripped(r)
    ensures |r| <= |s|
    ensures r == [] <==> forall k :: 0 <= k < |s| ==> IsSpace(s[k])
    ensures IsFramedIn(r, s)
  {
    var t := TrimStart(s);
    var r := TrimEnd(t);
    assert IsStripped(r) by {
      assert r != [] ==> r[0] == t[0];
    }
    SpaceFramed(s, t, r);
    r
  }

  /**
   * A prefix `r` of a suffix `t` of `s`, where only whitespace precedes `t` and only
   * whitespace follows `r` in `t`, is a stretch of `s` framed by whitespace.
   */
  lemma SpaceFramed(s: string, t: string, r: string)
    requires |t| <= |s| && t == s[|s| - |t|..]
    requires forall k :: 0 <= k < |s| - |t| ==> IsSpace(s[k])
    requires |r| <= |t| && r == t[..|r|]
    requires forall k :: |r| <= k < |t| ==> IsSpace(t[k])
    requires t != [] ==> !IsSpace(t[0])
    ensures IsFramedIn(r, s)
    ensures r == [] <==> forall k :: 0 <= k < |s| ==> IsSpace(s[k])
  {
    var a := |s| - |t|;
    assert forall k :: a <= k < |s| ==> s[k] == t[k - a];
    assert r == [] ==> t == [];
    assert (forall k :: 0 <= k < |s| ==> IsSpace(s[k])) ==> t == [] by {
      if t != [] {
        assert s[a] == t[0];
      }
    }
    assert s[a..][..|r|] == s[a..a + |r|];
    assert forall k :: a + |r| <= k < |s| ==> s[k] == t[k - a];
    assert forall k :: a + |r| <= k < |s| ==> IsSpace(s[k]);
  }

  lemma StripStripped(s: string)
    requires IsStripped(s)
    ensures Strip(s) == s
  {
    assert TrimStart(s) == s;
    assert TrimEnd(s) == s;
  }

  lemma StripIdempotent(s: string)
    ensures Strip(Strip(s)) == Strip(s)
  {
    var r := Strip(s);
    assert TrimStart(r) == r;
    assert TrimEnd(r) == r;
  }

  /** `sep.join(lines)`. */
  function Join(lines: seq<string>, sep: string): (r: string)
    ensures |lines| == 1 ==> r == lines[0]
    ensures |lines| >= 1 ==> lines[0] <= r
  {
    if |lines| == 0 then ""
    else if |lines| == 1 then lines[0]
    else lines[0] + sep + Join(lines[1..], sep)
  }

  lemma {:induction false} JoinSnoc(lines: seq<string>, x: string, sep: string)
    requires lines != []
    ensures Join(lines + [x], sep) == Join(lines, sep) + sep + x
  {
    if |lines| == 1 {
      assert (lines + [x])[1..] == [x];
    } else {
      assert (lines + [x])[1..] == lines[1..] + [x];
      JoinSnoc(lines[1..], x, sep);
    }
  }

  /** Joining keeps the join of any non-empty prefix of the lines as a prefix. */
  lemma {:induction false} JoinPrefix(lines: seq<string>, n: nat, sep: string)
    requires 1 <= n <= |lines|
    ensures Join(lines[..n], sep) <= Join(lines, sep)
    decreases |lines| - n
  {
    if n < |lines| {
      JoinPrefix(lines, n + 1, sep);
      assert lines[..n + 1] == lines[..n] + [lines[n]];
      JoinSnoc(lines[..n], lines[n], sep);
    } else {
      assert lines[..n] == lines;
    }
  }

  /** `s.replace(from, to)` for one-character `old` and `new`. */
  function ReplaceChar(s: string, from: char, to: char): (r: string)
    ensures |r| == |s|
    ensures forall i :: 0 <= i < |s| ==> r[i] == (if s[i] == from then to else s[i])
  {
    seq(|s|, i requires 0 <= i < |s| => if s[i] == from then to else s[i])
  }

  /**
   * The text that pieces separated by the given boundary characters spell: piece, boundary,
   * piece, ..., piece.
   */
  ghost function Rejoin(pieces: seq<string>, breaks: string): string
    requires |pieces| == |breaks| + 1
  {
    if breaks == [] then pieces[0]
    else pieces[0] + [breaks[0]] + Rejoin(pieces[1..], breaks[1..])
  }

  /** Putting a character in front of the first piece puts it in front of the text. */
  lemma RejoinConsHead(c: char, pieces: seq<string>, breaks: string)
    requires |pieces| == |breaks| + 1
    ensures Rejoin([[c] + pieces[0]] + pieces[1..], breaks) == [c] + Rejoin(pieces, breaks)
  {
    var p := [[c] + pieces[0]] + pieces[1..];
    assert p[1..] == pieces[1..];
  }

  /**
   * `s.splitlines()` up to empty lines: the text between consecutive line boundaries. A CR LF
   * pair and a final boundary give an extra empty piece that `str.splitlines()` does not.
   * There is one piece more than there are boundaries.
   */
  function SplitLines(s: string): (r: seq<string>)
    ensures |r| == |Keep(s, IsLineBreak)| + 1
    ensures forall k :: 0 <= k < |r| ==> forall c :: c in r[k] ==> !IsLineBreak(c)
    decreases |s|
  {
    if s == [] then [""]
    else
      var rest := SplitLines(s[1..]);
      if IsLineBreak(s[0]) then [""] + rest
      else [[s[0]] + rest[0]] + rest[1..]
  }

  /** The pieces, with the boundaries between them in order, spell the input again. */
  lemma {:induction false} SplitLinesRejoin(s: string)
    ensures Rejoin(SplitLines(s), Keep(s, IsLineBreak)) == s
    decreases |s|
  {
    if s != [] {
      var rest := SplitLines(s[1..]);
      SplitLinesRejoin(s[1..]);
      assert [s[0]] + s[1..] == s;
      if IsLineBreak(s[0]) {
        assert SplitLines(s)[1..] == rest;
        assert Keep(s, IsLineBreak) == [s[0]] + Keep(s[1..], IsLineBreak);
      } else {
        assert Keep(s, IsLineBreak) == Keep(s[1..], IsLineBreak);
        RejoinConsHead(s[0], rest, Keep(s[1..], IsLineBreak));
      }
    }
  }
}

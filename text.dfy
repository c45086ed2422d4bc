/**
 * The JavaScript string primitives the services rely on: `String.prototype.trim`,
 * `split(',')`, and the removal of a literal marker by a global regular expression.
 */
module Text {

  /** The characters ECMAScript counts as WhiteSpace or LineTerminator (what `trim` removes). */
  predicate IsWhitespace(c: char) {
    c == ' ' || ('\t' <= c <= '\r') || c == '\U{A0}' || c == '\U{1680}'
    || ('\U{2000}' <= c <= '\U{200A}') || c == '\U{2028}' || c == '\U{2029}'
    || c == '\U{202F}' || c == '\U{205F}' || c == '\U{3000}' || c == '\U{FEFF}'
  }

  predicate AllWhitespace(s: string) {
    forall k :: 0 <= k < |s| ==> IsWhitespace(s[k])
  }

  /** `s` neither starts nor ends with whitespace. */
  predicate IsTrimmed(s: string) {
    s == [] || (!IsWhitespace(s[0]) && !IsWhitespace(s[|s| - 1]))
  }

  /** Drops the leading whitespace: the result is a suffix of `s` that does not start with whitespace. */
  function TrimStart(s: string): (r: string)
    ensures |r| <= |s| && r == s[|s| - |r|..]
    ensures r == [] || !IsWhitespace(r[0])
  {
    if |s| > 0 && IsWhitespace(s[0]) then TrimStart(s[1..]) else s
  }

  /** Drops the trailing whitespace: the result is a prefix of `s` that does not end with whitespace. */
  function TrimEnd(s: string): (r: string)
    ensures |r| <= |s| && r == s[..|r|]
    ensures r == [] || !IsWhitespace(r[|r| - 1])
  {
    if |s| > 0 && IsWhitespace(s[|s| - 1]) then TrimEnd(s[..|s| - 1]) else s
  }

  /** Only whitespace is dropped at the start. */
  lemma {:induction false} TrimStartDropsWhitespace(s: string)
    ensures AllWhitespace(s[..|s| - |TrimStart(s)|])
    decreases |s|
  {
    if |s| > 0 && IsWhitespace(s[0]) {
      var r := TrimStart(s[1..]);
      TrimStartDropsWhitespace(s[1..]);
      forall k | 0 < k < |s| - |r| ensures IsWhitespace(s[k]) {
        assert s[k] == s[1..][..|s| - 1 - |r|][k - 1];
      }
    }
  }

  /** Only whitespace is dropped at the end. */
  lemma {:induction false} TrimEndDropsWhitespace(s: string)
    ensures AllWhitespace(s[|TrimEnd(s)|..])
    decreases |s|
  {
    if |s| > 0 && IsWhitespace(s[|s| - 1]) {
      var r := TrimEnd(s[..|s| - 1]);
      TrimEndDropsWhitespace(s[..|s| - 1]);
      forall k | |r| <= k < |s| - 1 ensures IsWhitespace(s[k]) {
        assert s[k] == s[..|s| - 1][|r|..][k - |r|];
      }
    }
  }

  /** `String.prototype.trim`. */
  function Trim(s: string): (r: string)
    ensures IsTrimmed(r)
    ensures |r| <= |s|
  {
    var t := TrimStart(s);
    var r := TrimEnd(t);
    assert r != [] ==> r[0] == t[0];
    r
  }

  lemma {:induction false} TrimStartOfTrimmed(s: string)
    requires s == [] || !IsWhitespace(s[0])
    ensures TrimStart(s) == s
  {
  }

  lemma {:induction false} TrimEndOfTrimmed(s: string)
    requires s == [] || !IsWhitespace(s[|s| - 1])
    ensures TrimEnd(s) == s
  {
  }

  /** Trimming leaves an already trimmed string alone, so `trim` is idempotent. */
  lemma TrimOfTrimmed(s: string)
    requires IsTrimmed(s)
    ensures Trim(s) == s
  {
    TrimStartOfTrimmed(s);
    TrimEndOfTrimmed(s);
  }

  lemma TrimIdempotent(s: string)
    ensures Trim(Trim(s)) == Trim(s)
  {
    TrimOfTrimmed(Trim(s));
  }

  lemma {:induction false} TrimStartOfBlank(s: string)
    requires AllWhitespace(s)
    ensures TrimStart(s) == []
    decreases |s|
  {
    if s != [] {
      TrimStartOfBlank(s[1..]);
    }
  }

  /** A trimmed string is empty exactly when the input held nothing but whitespace. */
  lemma TrimEmptyIffBlank(s: string)
    ensures Trim(s) == [] <==> AllWhitespace(s)
  {
    var t := TrimStart(s);
    TrimStartDropsWhitespace(s);
    if AllWhitespace(s) {
      TrimStartOfBlank(s);
    }
    if Trim(s) == [] {
      TrimEndDropsWhitespace(t);
      assert AllWhitespace(t[0..]);
      assert t == [];
      assert s[..|s| - |t|] == s;
    }
  }

  // ---------------------------------------------------------------------------
  // Marker removal: `s.replace(/<marker>\n?/g, '')`

  /** The marker `m` occurs in `s` at position `i`. */
  predicate MarkerAt(s: string, m: string, i: int) {
    0 <= i && i + |m| <= |s| && s[i..i + |m|] == m
  }

  ghost predicate Occurs(s: string, m: string) {
    exists i :: MarkerAt(s, m, i)
  }

  /**
   * A global regular-expression replace of the literal `m` followed by an optional
   * newline with the empty string: scanning left to right, every match is cut out and
   * scanning resumes after it (text produced by a cut is not rescanned).
   */
  function RemoveAll(s: string, m: string): (r: string)
    requires |m| > 0
    ensures |r| <= |s|
    ensures multiset(r) <= multiset(s)
    decreases |s|
  {
    if |s| >= |m| && s[..|m|] == m then
      var rest := s[|m|..];
      assert s == s[..|m|] + rest;
      if |rest| > 0 && rest[0] == '\n' then
        assert rest == [rest[0]] + rest[1..];
        RemoveAll(rest[1..], m)
      else RemoveAll(rest, m)
    else if s == [] then []
    else
      assert s == [s[0]] + s[1..];
      [s[0]] + RemoveAll(s[1..], m)
  }

  /** Where the marker does not occur, removing it changes nothing. */
  lemma {:induction false} RemoveAllAbsent(s: string, m: string)
    requires |m| > 0 && !Occurs(s, m)
    ensures RemoveAll(s, m) == s
    decreases |s|
  {
    assert !MarkerAt(s, m, 0);
    if s != [] {
      forall i ensures !MarkerAt(s[1..], m, i) {
        if MarkerAt(s[1..], m, i) {
          assert s[i + 1..i + 1 + |m|] == s[1..][i..i + |m|];
          assert MarkerAt(s, m, i + 1);
        }
      }
      RemoveAllAbsent(s[1..], m);
    }
  }

  // ---------------------------------------------------------------------------
  // `split(',')` and its inverse `join(',')`

  /** `s.split(sep)` for a one-character separator: never empty; `""` gives `[""]`. */
  function Split(s: string, sep: char): (r: seq<string>)
    ensures |r| >= 1
    ensures forall k :: 0 <= k < |r| ==> sep !in r[k]
    decreases |s|
  {
    if s == [] then [[]]
    else
      var tail := Split(s[1..], sep);
      if s[0] == sep then [[]] + tail else [[s[0]] + tail[0]] + tail[1..]
  }

  function Join(pieces: seq<string>, sep: char): string
    requires |pieces| >= 1
  {
    if |pieces| == 1 then pieces[0] else pieces[0] + [sep] + Join(pieces[1..], sep)
  }

  /** Joining the pieces of a split gives back the text. */
  lemma {:induction false} JoinSplit(s: string, sep: char)
    ensures Join(Split(s, sep), sep) == s
    decreases |s|
  {
    if s != [] {
      var tail := Split(s[1..], sep);
      JoinSplit(s[1..], sep);
      if s[0] == sep {
        assert Join([[]] + tail, sep) == [] + [sep] + Join(tail, sep);
      } else {
        var r := [[s[0]] + tail[0]] + tail[1..];
        if |tail| == 1 {
          assert Join(r, sep) == [s[0]] + tail[0];
        } else {
          assert Join(tail, sep) == tail[0] + [sep] + Join(tail[1..], sep);
          assert r[1..] == tail[1..];
          assert Join(r, sep) == ([s[0]] + tail[0]) + [sep] + Join(tail[1..], sep);
        }
      }
      assert s == [s[0]] + s[1..];
    }
  }

  lemma {:induction false} SplitPrefix(p: string, rest: string, sep: char)
    requires sep !in p
    ensures Split(p + rest, sep) ==
      var t := Split(rest, sep); [p + t[0]] + t[1..]
    decreases |p|
  {
    if p == [] {
      var t := Split(rest, sep);
      assert p + rest == rest;
      assert p + t[0] == t[0];
      assert [p + t[0]] + t[1..] == t;
    } else {
      assert (p + rest)[1..] == p[1..] + rest;
      SplitPrefix(p[1..], rest, sep);
      assert [p[0]] + (p[1..] + Split(rest, sep)[0]) == p + Split(rest, sep)[0];
    }
  }

  /** A leading separator splits off an empty first piece. */
  lemma SplitAtSep(rest: string, sep: char)
    ensures Split([sep] + rest, sep) == [[]] + Split(rest, sep)
  {
    assert ([sep] + rest)[1..] == rest;
  }

  /** Splitting a join gives back the pieces, provided no piece holds the separator. */
  lemma {:induction false} SplitJoin(pieces: seq<string>, sep: char)
    requires |pieces| >= 1
    requires forall k :: 0 <= k < |pieces| ==> sep !in pieces[k]
    ensures Split(Join(pieces, sep), sep) == pieces
    decreases |pieces|
  {
    if |pieces| == 1 {
      SplitPrefix(pieces[0], [], sep);
      assert pieces[0] + [] == pieces[0];
    } else {
      var tailJoin := Join(pieces[1..], sep);
      SplitJoin(pieces[1..], sep);
      SplitAtSep(tailJoin, sep);
      var t := Split([sep] + tailJoin, sep);
      assert t == [[]] + pieces[1..];
      assert t[0] == [] && t[1..] == pieces[1..];
      var j := Join(pieces, sep);
      assert j == pieces[0] + [sep] + tailJoin;
      assert j == pieces[0] + ([sep] + tailJoin);
      SplitPrefix(pieces[0], [sep] + tailJoin, sep);
      assert Split(j, sep) == [pieces[0] + t[0]] + t[1..];
      assert pieces[0] + t[0] == pieces[0];
      assert Split(j, sep) == [pieces[0]] + pieces[1..];
      assert pieces == [pieces[0]] + pieces[1..];
    }
  }
}

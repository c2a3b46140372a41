/**
 * The two string operations the core relies on: JavaScript's
 * `String.prototype.trim` and `String.prototype.split('/')`, the latter used
 * to take the last segment of a URL's pathname as an asset's name.
 */
module Text {

  /**
   * The characters `trim` removes: ECMAScript's WhiteSpace and LineTerminator
   * code points (tab, line feed, vertical tab, form feed, carriage return,
   * space, no-break space, ogham space mark, U+2000 to U+200A, line and
   * paragraph separators, narrow no-break space, medium mathematical space,
   * ideographic space and the byte order mark).
   */
  const Blanks: seq<char> := [
    '\t', '\n', '\U{000B}', '\U{000C}', '\r', ' ', '\U{00A0}', '\U{1680}',
    '\U{2000}', '\U{2001}', '\U{2002}', '\U{2003}', '\U{2004}', '\U{2005}',
    '\U{2006}', '\U{2007}', '\U{2008}', '\U{2009}', '\U{200A}',
    '\U{2028}', '\U{2029}', '\U{202F}', '\U{205F}', '\U{3000}', '\U{FEFF}']

  predicate IsWhitespace(c: char)
  {
    OccursIn(c, Blanks)
  }

  /**
   * Whether `c` is one of `chars`, looked up one entry at a time, so that
   * the general facts about `trim` are proved without unfolding the table.
   */
  predicate OccursIn(c: char, chars: seq<char>)
  {
    chars != [] && (chars[0] == c || OccursIn(c, chars[1..]))
  }

  predicate AllWhitespace(s: string)
  {
    forall i :: 0 <= i < |s| ==> IsWhitespace(s[i])
  }

  /** True when `s` neither starts nor ends with whitespace. */
  predicate IsTrimmed(s: string)
  {
    s == [] || (!IsWhitespace(s[0]) && !IsWhitespace(s[|s| - 1]))
  }

  /** `s` without its leading whitespace: the longest suffix starting with a non-blank. */
  function TrimStart(s: string): (r: string)
    ensures |r| <= |s| && r == s[|s| - |r|..]
    ensures forall i :: 0 <= i < |s| - |r| ==> IsWhitespace(s[i])
    ensures r == [] || !IsWhitespace(r[0])
  {
    if s != [] && IsWhitespace(s[0]) then
      TrimStart(s[1..])
    else s
  }

  /** `s` without its trailing whitespace: the longest prefix ending with a non-blank. */
  function TrimEnd(s: string): (r: string)
    ensures |r| <= |s| && r == s[..|r|]
    ensures forall i :: |r| <= i < |s| ==> IsWhitespace(s[i])
    ensures r == [] || !IsWhitespace(r[|r| - 1])
  {
    if s != [] && IsWhitespace(s[|s| - 1]) then
      TrimEnd(s[..|s| - 1])
    else s
  }

  /** `String.prototype.trim`: the input without its leading and trailing whitespace. */
  function Trim(s: string): (r: string)
    ensures IsTrimmed(r)
    ensures |r| <= |s|
  {
    TrimEnd(TrimStart(s))
  }

  /**
   * What `trim` cuts off is whitespace only: the input is the result with a
   * run of blanks in front and a run of blanks behind.
   */
  lemma {:induction false} TrimIsSlice(s: string) returns (front: string, back: string)
    ensures AllWhitespace(front) && AllWhitespace(back)
    ensures s == front + Trim(s) + back
  {
    var t := TrimStart(s);
    var r := TrimEnd(t);
    front, back := BlankEnds(s, t, r);
  }

  /** The sequence arithmetic behind `TrimIsSlice`, on the two intermediate strings. */
  lemma {:induction false} BlankEnds(s: string, t: string, r: string) returns (front: string, back: string)
    requires |t| <= |s| && t == s[|s| - |t|..]
    requires forall i :: 0 <= i < |s| - |t| ==> IsWhitespace(s[i])
    requires |r| <= |t| && r == t[..|r|]
    requires forall i :: |r| <= i < |t| ==> IsWhitespace(t[i])
    ensures AllWhitespace(front) && AllWhitespace(back)
    ensures s == front + r + back
  {
    front := s[..|s| - |t|];
    back := t[|r|..];
    assert s == front + t;
    assert t == r + back;
  }

  /**
   * `trim` is characterised by its effect: whatever blanks surround a trimmed
   * core, trimming returns exactly that core.
   */
  lemma {:induction false} TrimOfPadded(front: string, core: string, back: string)
    requires AllWhitespace(front) && AllWhitespace(back) && IsTrimmed(core)
    ensures Trim(front + core + back) == core
  {
    assert front + core + back == front + (core + back);
    if core == [] {
      assert AllWhitespace(front + back) by {
        forall i | 0 <= i < |front + back| ensures IsWhitespace((front + back)[i]) {
          if i >= |front| { assert (front + back)[i] == back[i - |front|]; }
        }
      }
      assert front + core + back == (front + back) + [];
      TrimStartOfPadded(front + back, []);
    } else {
      TrimStartOfPadded(front, core + back);
      TrimEndOfPadded(core, back);
    }
  }

  lemma {:induction false} TrimStartOfPadded(front: string, rest: string)
    requires AllWhitespace(front)
    requires rest == [] || !IsWhitespace(rest[0])
    ensures TrimStart(front + rest) == rest
    decreases |front|
  {
    var w := front + rest;
    if front == [] {
      assert w == rest;
    } else {
      assert w[0] == front[0] && IsWhitespace(w[0]);
      assert w[1..] == front[1..] + rest;
      var shorter := front[1..];
      assert AllWhitespace(shorter) by {
        forall i | 0 <= i < |shorter| ensures IsWhitespace(shorter[i]) {
          assert shorter[i] == front[i + 1];
        }
      }
      TrimStartOfPadded(front[1..], rest);
    }
  }

  lemma {:induction false} TrimEndOfPadded(rest: string, back: string)
    requires AllWhitespace(back)
    requires rest == [] || !IsWhitespace(rest[|rest| - 1])
    ensures TrimEnd(rest + back) == rest
    decreases |back|
  {
    var w := rest + back;
    if back == [] {
      assert w == rest;
    } else {
      assert w[|w| - 1] == back[|back| - 1] && IsWhitespace(w[|w| - 1]);
      assert w[..|w| - 1] == rest + back[..|back| - 1];
      var shorter := back[..|back| - 1];
      assert AllWhitespace(shorter) by {
        forall i | 0 <= i < |shorter| ensures IsWhitespace(shorter[i]) {
          assert shorter[i] == back[i];
        }
      }
      TrimEndOfPadded(rest, back[..|back| - 1]);
    }
  }

  /** A string without surrounding blanks is its own trim. */
  lemma {:induction false} TrimOfTrimmed(s: string)
    requires IsTrimmed(s)
    ensures Trim(s) == s
  {
    assert TrimStart(s) == s;
    assert TrimEnd(s) == s;
  }

  /** Trimming twice is trimming once. */
  lemma {:induction false} TrimIdempotent(s: string)
    ensures Trim(Trim(s)) == Trim(s)
  {
    TrimOfTrimmed(Trim(s));
  }

  /**
   * `s.split('/')`: the pieces between slashes, in order; there is always at
   * least one piece, and a leading or trailing slash gives an empty one.
   */
  function Split(s: string): (parts: seq<string>)
    ensures |parts| >= 1
  {
    if s == [] then [[]]
    else
      var rest := Split(s[1..]);
      if s[0] == '/' then [[]] + rest else [[s[0]] + rest[0]] + rest[1..]
  }

  /** No piece of a split holds a slash. */
  lemma {:induction false} SplitPiecesHaveNoSlash(s: string)
    ensures forall i :: 0 <= i < |Split(s)| ==> '/' !in Split(s)[i]
  {
    if s != [] {
      var rest := Split(s[1..]);
      SplitPiecesHaveNoSlash(s[1..]);
      if s[0] != '/' {
        var parts := Split(s);
        assert parts[0] == [s[0]] + rest[0];
        forall i | 1 <= i < |parts| ensures '/' !in parts[i] {
          assert parts[i] == rest[i];
        }
      }
    }
  }

  /** The inverse of `Split`: the pieces glued back together with slashes. */
  function Join(parts: seq<string>): string
    requires |parts| >= 1
  {
    if |parts| == 1 then parts[0] else parts[0] + "/" + Join(parts[1..])
  }

  /** Splitting loses nothing: joining the pieces gives the string back. */
  lemma {:induction false} JoinSplit(s: string)
    ensures Join(Split(s)) == s
  {
    if s != [] {
      var c, w := s[0], s[1..];
      assert s == [c] + w;
      JoinSplit(w);
      JoinSplitCons(c, w);
    }
  }

  /** The step of `JoinSplit`: putting a character in front of a string that round-trips. */
  lemma {:induction false} JoinSplitCons(c: char, w: string)
    requires Join(Split(w)) == w
    ensures Join(Split([c] + w)) == [c] + w
  {
    SplitCons(c, w);
    if c == '/' {
      JoinEmptyFront(Split(w));
    } else {
      JoinExtendedFront(c, Split(w));
    }
  }

  lemma {:induction false} JoinEmptyFront(parts: seq<string>)
    requires |parts| >= 1
    ensures Join([[]] + parts) == "/" + Join(parts)
  {
    assert ([[]] + parts)[1..] == parts;
  }

  lemma {:induction false} JoinExtendedFront(c: char, parts: seq<string>)
    requires |parts| >= 1
    ensures Join([[c] + parts[0]] + parts[1..]) == [c] + Join(parts)
  {
    var longer := [[c] + parts[0]] + parts[1..];
    if |parts| > 1 {
      assert longer[1..] == parts[1..];
    }
  }

  /** Slash-free pieces joined with slashes split back into the same pieces. */
  lemma {:induction false} SplitJoin(parts: seq<string>)
    requires |parts| >= 1
    requires forall i :: 0 <= i < |parts| ==> '/' !in parts[i]
    ensures Split(Join(parts)) == parts
    decreases |parts|, |parts[0]|
  {
    if |parts| == 1 {
      SplitOfPlain(parts[0]);
    } else if parts[0] == [] {
      SplitJoin(parts[1..]);
      SplitJoinEmptyFirst(parts);
    } else {
      var shorter := [parts[0][1..]] + parts[1..];
      assert parts[0][0] in parts[0];
      NoSlashAfterFirst(parts, shorter);
      SplitJoin(shorter);
      SplitJoinCharFirst(parts, shorter);
    }
  }

  /** `SplitJoin` when the first piece is empty: the joined string starts with a slash. */
  lemma {:induction false} SplitJoinEmptyFirst(parts: seq<string>)
    requires |parts| >= 2 && parts[0] == []
    requires Split(Join(parts[1..])) == parts[1..]
    ensures Split(Join(parts)) == parts
  {
    var tail := Join(parts[1..]);
    assert Join(parts) == ['/'] + tail;
    SplitCons('/', tail);
    assert parts == [[]] + parts[1..];
  }

  /** `SplitJoin` when the first piece starts with a character `c`, not a slash. */
  lemma {:induction false} SplitJoinCharFirst(parts: seq<string>, shorter: seq<string>)
    requires |parts| >= 2 && parts[0] != [] && parts[0][0] != '/'
    requires shorter == [parts[0][1..]] + parts[1..]
    requires Split(Join(shorter)) == shorter
    ensures Split(Join(parts)) == parts
  {
    var c, w := parts[0][0], parts[0][1..];
    assert parts[0] == [c] + w;
    assert shorter[1..] == parts[1..];
    var tail := Join(parts[1..]);
    assert Join(shorter) == w + "/" + tail;
    assert Join(parts) == [c] + (w + "/" + tail);
    SplitCons(c, Join(shorter));
    assert Split(Join(parts)) == [[c] + w] + parts[1..];
    assert parts == [parts[0]] + parts[1..];
  }

  /** Dropping the first character of the first piece keeps every piece slash-free. */
  lemma {:induction false} NoSlashAfterFirst(parts: seq<string>, shorter: seq<string>)
    requires |parts| >= 2 && parts[0] != []
    requires forall i :: 0 <= i < |parts| ==> '/' !in parts[i]
    requires shorter == [parts[0][1..]] + parts[1..]
    ensures forall i :: 0 <= i < |shorter| ==> '/' !in shorter[i]
  {
    forall i | 0 <= i < |shorter| ensures '/' !in shorter[i] {
      if i == 0 {
        forall x | x in parts[0][1..] ensures x != '/' { assert x in parts[0]; }
      } else {
        assert shorter[i] == parts[i];
      }
    }
  }

  /** One step of `Split`, on a string written as its first character and the rest. */
  lemma {:induction false} SplitCons(c: char, w: string)
    ensures Split([c] + w) ==
      if c == '/' then [[]] + Split(w) else [[c] + Split(w)[0]] + Split(w)[1..]
  {
    assert ([c] + w)[1..] == w;
  }

  lemma {:induction false} SplitOfPlain(s: string)
    ensures '/' !in s ==> Split(s) == [s]
  {
    if s != [] && '/' !in s {
      assert '/' !in s[1..] by {
        forall c | c in s[1..] ensures c != '/' { assert c in s; }
      }
      SplitOfPlain(s[1..]);
      assert s == [s[0]] + s[1..];
    }
  }

  /** The last `/`-separated piece of `path`: `path.split('/')[length - 1]`. */
  function LastSegment(path: string): (last: string)
    ensures '/' !in last
  {
    SplitPiecesHaveNoSlash(path);
    var parts := Split(path);
    parts[|parts| - 1]
  }

  /**
   * The last segment contains no slash and ends the path; unless it is the
   * whole path, a slash stands right before it.
   */
  lemma {:induction false} LastSegmentIsSuffix(path: string)
    ensures '/' !in LastSegment(path)
    ensures |LastSegment(path)| <= |path|
    ensures LastSegment(path) == path[|path| - |LastSegment(path)|..]
    ensures LastSegment(path) == path || path[|path| - |LastSegment(path)| - 1] == '/'
  {
    LastSegmentEndsPath(path);
  }

  lemma {:induction false} LastSegmentEndsPath(path: string)
    ensures |LastSegment(path)| <= |path|
    ensures LastSegment(path) == path[|path| - |LastSegment(path)|..]
    ensures LastSegment(path) == path || path[|path| - |LastSegment(path)| - 1] == '/'
  {
    if path != [] {
      LastSegmentEndsPath(path[1..]);
      LastSegmentStep(path);
    }
  }

  /** The step of `LastSegmentEndsPath`, from the path without its first character. */
  lemma {:induction false} LastSegmentStep(path: string)
    requires path != []
    requires var w := path[1..];
      && |LastSegment(w)| <= |w|
      && LastSegment(w) == w[|w| - |LastSegment(w)|..]
      && (LastSegment(w) == w || w[|w| - |LastSegment(w)| - 1] == '/')
    ensures |LastSegment(path)| <= |path|
    ensures LastSegment(path) == path[|path| - |LastSegment(path)|..]
    ensures LastSegment(path) == path || path[|path| - |LastSegment(path)| - 1] == '/'
  {
    var c, w := path[0], path[1..];
    assert path == [c] + w;
    var last := LastSegment(w);
    LastSegmentOfCons(c, w);
    LastSegmentIsWhole(w);
    assert path[|path| - |last|..] == w[|w| - |last|..];
    if LastSegment(path) == last && last != w {
      assert path[|path| - |last| - 1] == w[|w| - |last| - 1];
    }
  }

  /** How the last segment changes when a character is put in front of the path. */
  lemma {:induction false} LastSegmentOfCons(c: char, w: string)
    ensures LastSegment([c] + w) ==
      if c != '/' && |Split(w)| == 1 then [c] + LastSegment(w) else LastSegment(w)
  {
    SplitCons(c, w);
  }

  /** The last segment is the whole path exactly when the path holds no slash. */
  lemma {:induction false} LastSegmentIsWhole(path: string)
    ensures LastSegment(path) == path <==> |Split(path)| == 1
  {
    if |Split(path)| == 1 {
      JoinSplit(path);
    } else {
      SplitPiecesHaveNoSlash(path);
      SplitOfPlain(path);
    }
  }
}

/**
 * The Python string built-ins the core relies on: `str.isspace`, `str.strip() == ""`,
 * `str.split()` with no separator, and `sep.join(parts)`.
 */
module Text {

  /** The characters Python's `str.split()` and `str.strip()` treat as whitespace. */
  predicate IsSpace(c: char)
    ensures c == ' ' || c == '\t' || c == '\n' || c == '\r' ==> IsSpace(c)
    ensures IsSpace(c) ==> !('0' <= c <= '9' || 'a' <= c <= 'z' || 'A' <= c <= 'Z' || c == '_')
  {
    var x := c as int;
    || (0x09 <= x <= 0x0D) || (0x1C <= x <= 0x20) || x == 0x85 || x == 0xA0 || x == 0x1680
    || (0x2000 <= x <= 0x200A) || x == 0x2028 || x == 0x2029 || x == 0x202F || x == 0x205F
    || x == 0x3000
  }

  /** `not s.strip()`: the string is empty or holds only whitespace. */
  predicate IsBlank(s: string)
    ensures s == [] ==> IsBlank(s)
    ensures (forall i :: 0 <= i < |s| ==> s[i] == ' ' || s[i] == '\n') ==> IsBlank(s)
    ensures (exists i :: 0 <= i < |s| && 'a' <= s[i] <= 'z') ==> !IsBlank(s)
  {
    forall i :: 0 <= i < |s| ==> IsSpace(s[i])
  }

  /** A word as `str.split()` yields it: non-empty, without whitespace. */
  predicate IsWord(w: string) {
    |w| > 0 && forall i :: 0 <= i < |w| ==> !IsSpace(w[i])
  }

  predicate AllWords(ws: seq<string>) {
    forall i :: 0 <= i < |ws| ==> IsWord(ws[i])
  }

  /** Length of the longest whitespace-free prefix of `s`. */
  function WordLen(s: string): (k: nat)
    ensures k <= |s|
    ensures forall i :: 0 <= i < k ==> !IsSpace(s[i])
    ensures k < |s| ==> IsSpace(s[k])
  {
    if s == [] || IsSpace(s[0]) then 0 else 1 + WordLen(s[1..])
  }

  /** `s.split()`: the maximal runs of non-whitespace characters, in order. */
  function Split(s: string): (ws: seq<string>)
    ensures AllWords(ws)
    decreases |s|
  {
    if s == [] then []
    else if IsSpace(s[0]) then Split(s[1..])
    else
      var k := WordLen(s);
      [s[..k]] + Split(s[k..])
  }

  /** `sep.join(parts)`. */
  function JoinWith(sep: string, parts: seq<string>): (r: string)
    ensures parts == [] ==> r == ""
    ensures |parts| > 0 ==> OccursAt(r, parts[0], 0) && OccursAt(r, parts[|parts| - 1], |r| - |parts[|parts| - 1]|)
    decreases |parts|
  {
    if |parts| == 0 then ""
    else if |parts| == 1 then parts[0]
    else parts[0] + sep + JoinWith(sep, parts[1..])
  }

  /** `sub` stands in `s` from position `pos` on. */
  predicate OccursAt(s: string, sub: string, pos: int) {
    0 <= pos && pos + |sub| <= |s| && s[pos..pos + |sub|] == sub
  }

  /** Where part `i` starts in `sep.join(parts)`: after every earlier part and its separator. */
  function PartOffset(sep: string, parts: seq<string>, i: nat): nat
    requires i < |parts|
  {
    if i == 0 then 0 else |parts[0]| + |sep| + PartOffset(sep, parts[1..], i - 1)
  }

  /** Every part stands, unchanged, at its offset in the joined string. */
  lemma {:induction false} JoinWithHoldsParts(sep: string, parts: seq<string>)
    ensures forall i :: 0 <= i < |parts| ==> OccursAt(JoinWith(sep, parts), parts[i], PartOffset(sep, parts, i))
    decreases |parts|
  {
    if |parts| == 1 {
      assert parts[0][0..|parts[0]|] == parts[0];
    } else if |parts| >= 2 {
      JoinWithHoldsParts(sep, parts[1..]);
      var pre := parts[0] + sep;
      var rest := JoinWith(sep, parts[1..]);
      assert JoinWith(sep, parts) == pre + rest;
      forall i | 0 <= i < |parts|
        ensures OccursAt(JoinWith(sep, parts), parts[i], PartOffset(sep, parts, i))
      {
        if i == 0 {
          assert (pre + rest)[0..|parts[0]|] == parts[0];
        } else {
          var pos := PartOffset(sep, parts[1..], i - 1);
          assert parts[1..][i - 1] == parts[i];
          assert (pre + rest)[|pre| + pos..|pre| + pos + |parts[i]|] == rest[pos..pos + |parts[i]|];
        }
      }
    }
  }

  /** Surrounding a string with a prefix and a suffix keeps every occurrence in it, shifted by the prefix. */
  lemma OccursWithin(pre: string, s: string, post: string)
    ensures OccursAt(pre + s + post, pre, 0)
    ensures OccursAt(pre + s + post, post, |pre| + |s|)
    ensures forall sub, pos :: OccursAt(s, sub, pos) ==> OccursAt(pre + s + post, sub, |pre| + pos)
  {
    var whole := pre + s + post;
    assert whole[0..|pre|] == pre;
    assert whole[|pre| + |s|..|pre| + |s| + |post|] == post;
    forall sub, pos | OccursAt(s, sub, pos) ensures OccursAt(whole, sub, |pre| + pos) {
      assert whole[|pre| + pos..|pre| + pos + |sub|] == s[pos..pos + |sub|];
    }
  }

  /** `" ".join(ws)`. */
  function Join(ws: seq<string>): (r: string)
    ensures ws == [] ==> r == ""
    ensures |ws| == 1 ==> r == ws[0]
    ensures |ws| > 0 ==> OccursAt(r, ws[0], 0) && OccursAt(r, ws[|ws| - 1], |r| - |ws[|ws| - 1]|)
  {
    JoinWith(" ", ws)
  }

  /** Appending one part adds the separator and that part at the end. */
  lemma {:induction false} JoinWithSnoc(sep: string, parts: seq<string>, p: string)
    requires parts != []
    ensures JoinWith(sep, parts + [p]) == JoinWith(sep, parts) + sep + p
    decreases |parts|
  {
    if |parts| == 1 {
      assert parts + [p] == [parts[0], p];
    } else {
      assert (parts + [p])[1..] == parts[1..] + [p];
      JoinWithSnoc(sep, parts[1..], p);
    }
  }

  lemma {:induction false} WordLenOfWord(w: string, rest: string)
    requires forall i :: 0 <= i < |w| ==> !IsSpace(w[i])
    requires rest == [] || IsSpace(rest[0])
    ensures WordLen(w + rest) == |w|
    decreases |w|
  {
    if w != [] {
      assert (w + rest)[1..] == w[1..] + rest;
      WordLenOfWord(w[1..], rest);
    } else {
      assert w + rest == rest;
    }
  }

  /** Splitting a word followed by nothing or by whitespace yields that word first. */
  lemma SplitWordThen(w: string, rest: string)
    requires IsWord(w)
    requires rest == [] || IsSpace(rest[0])
    ensures Split(w + rest) == [w] + Split(rest)
  {
    WordLenOfWord(w, rest);
    var s := w + rest;
    assert s[..|w|] == w;
    assert s[|w|..] == rest;
  }

  /** Round trip: splitting words joined by single spaces gives the words back. */
  lemma {:induction false} SplitJoin(ws: seq<string>)
    requires AllWords(ws)
    ensures Split(Join(ws)) == ws
    decreases |ws|
  {
    if |ws| == 1 {
      SplitWordThen(ws[0], "");
      assert ws[0] + "" == ws[0];
    } else if |ws| > 1 {
      var tail := Join(ws[1..]);
      assert Join(ws) == ws[0] + (" " + tail);
      SplitWordThen(ws[0], " " + tail);
      assert (" " + tail)[1..] == tail;
      SplitJoin(ws[1..]);
    }
  }

  /** `s.split()` is empty exactly when `s` is blank. */
  lemma {:induction false} SplitEmptyIffBlank(s: string)
    ensures Split(s) == [] <==> IsBlank(s)
    decreases |s|
  {
    if s != [] && IsSpace(s[0]) {
      SplitEmptyIffBlank(s[1..]);
      assert IsBlank(s) <==> IsBlank(s[1..]) by {
        if IsBlank(s[1..]) {
          forall i | 0 <= i < |s| ensures IsSpace(s[i]) {
            if i > 0 { assert s[i] == s[1..][i - 1]; }
          }
        }
      }
    }
  }

  /** Words joined by spaces are blank only when there are no words. */
  lemma JoinNotBlank(ws: seq<string>)
    requires AllWords(ws) && ws != []
    ensures !IsBlank(Join(ws))
  {
    SplitJoin(ws);
    SplitEmptyIffBlank(Join(ws));
  }
}

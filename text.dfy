/**
 * The few Python `str` operations the dashboard relies on, written out over
 * `seq<char>`. Case mapping covers ASCII letters only; whitespace is the set
 * Python's `str.isspace` and `str.split()` use.
 */
module Text {

  /** `s.startswith(p)` */
  predicate StartsWith(s: string, p: string) {
    |p| <= |s| && s[..|p|] == p
  }

  /** `sub in s` */
  predicate Contains(s: string, sub: string)
    decreases |s|
  {
    StartsWith(s, sub) || (s != [] && Contains(s[1..], sub))
  }

  /** The characters Python's `str.isspace()` accepts. */
  predicate IsSpace(c: char) {
    || ('\t' <= c <= '\r')
    || ('\U{1C}' <= c <= ' ')
    || c == '\U{85}' || c == '\U{A0}' || c == '\U{1680}'
    || ('\U{2000}' <= c <= '\U{200A}')
    || c == '\U{2028}' || c == '\U{2029}' || c == '\U{202F}' || c == '\U{205F}' || c == '\U{3000}'
  }

  predicate NoSpace(w: string) {
    forall i :: 0 <= i < |w| ==> !IsSpace(w[i])
  }

  function LowerChar(c: char): char {
    if 'A' <= c <= 'Z' then (c as int + 32) as char else c
  }

  function UpperChar(c: char): char {
    if 'a' <= c <= 'z' then (c as int - 32) as char else c
  }

  /** `s.lower()` */
  function Lower(s: string): (r: string)
    ensures |r| == |s|
    ensures forall i :: 0 <= i < |s| ==> r[i] == LowerChar(s[i])
  {
    seq(|s|, i requires 0 <= i < |s| => LowerChar(s[i]))
  }

  /** `w.capitalize()`: the first character upper-cased, the rest lower-cased. */
  function Capitalize(w: string): (r: string)
    ensures |r| == |w|
    ensures |w| > 0 ==> r[0] == UpperChar(w[0])
    ensures forall i :: 0 < i < |w| ==> r[i] == LowerChar(w[i])
  {
    if w == [] then [] else [UpperChar(w[0])] + Lower(w[1..])
  }

  /** `s.rstrip(c)` for one character `c`: what is left never ends in `c`. */
  function RStrip(s: string, c: char): (r: string)
    ensures StartsWith(s, r)
    ensures r == [] || r[|r| - 1] != c
    ensures forall i :: |r| <= i < |s| ==> s[i] == c
    decreases |s|
  {
    if s != [] && s[|s| - 1] == c then RStrip(s[..|s| - 1], c) else s
  }

  /** `s.lstrip()` over whitespace. */
  function LStripSpace(s: string): string
    decreases |s|
  {
    if s != [] && IsSpace(s[0]) then LStripSpace(s[1..]) else s
  }

  /** `s.rstrip()` over whitespace. */
  function RStripSpace(s: string): string
    decreases |s|
  {
    if s != [] && IsSpace(s[|s| - 1]) then RStripSpace(s[..|s| - 1]) else s
  }

  /**
   * `s.strip()`. Its results are used in many places, so what it guarantees
   * is stated once, in `StripTrims`, rather than as a postcondition.
   */
  function Strip(s: string): string {
    RStripSpace(LStripSpace(s))
  }

  lemma {:induction false} LStripSpaceFirst(s: string)
    ensures LStripSpace(s) == [] || !IsSpace(LStripSpace(s)[0])
    decreases |s|
  {
    if s != [] && IsSpace(s[0]) {
      LStripSpaceFirst(s[1..]);
    }
  }

  lemma {:induction false} RStripSpaceEnds(s: string)
    ensures |RStripSpace(s)| <= |s| && RStripSpace(s) == s[..|RStripSpace(s)|]
    ensures RStripSpace(s) == [] || !IsSpace(RStripSpace(s)[|RStripSpace(s)| - 1])
    decreases |s|
  {
    if s != [] && IsSpace(s[|s| - 1]) {
      RStripSpaceEnds(s[..|s| - 1]);
    }
  }

  /** `strip()` leaves no whitespace at either end, and keeps a string without any as it is. */
  lemma StripTrims(s: string)
    ensures Strip(s) == [] || (!IsSpace(Strip(s)[0]) && !IsSpace(Strip(s)[|Strip(s)| - 1]))
    ensures s == [] || (!IsSpace(s[0]) && !IsSpace(s[|s| - 1])) ==> Strip(s) == s
  {
    var l := LStripSpace(s);
    LStripSpaceFirst(s);
    RStripSpaceEnds(l);
    if Strip(s) != [] {
      assert Strip(s)[0] == l[0];
    }
  }

  /** `s.split(c)[0]`: everything before the first `c`. */
  function TakeUntil(s: string, c: char): (r: string)
    ensures StartsWith(s, r)
    ensures forall i :: 0 <= i < |r| ==> r[i] != c
    ensures |r| == |s| || s[|r|] == c
  {
    if s == [] || s[0] == c then [] else [s[0]] + TakeUntil(s[1..], c)
  }

  /** `s.replace(from, to)` for single characters. */
  function ReplaceChar(s: string, from: char, to: char): (r: string)
    ensures |r| == |s|
    ensures forall i :: 0 <= i < |s| ==> r[i] == (if s[i] == from then to else s[i])
  {
    seq(|s|, i requires 0 <= i < |s| => if s[i] == from then to else s[i])
  }

  /**
   * `s.replace(c, '')`: every other character is kept as often as it occurs,
   * and `c` not at all; `RemoveCharAppend` adds that their order is kept.
   */
  function RemoveChar(s: string, c: char): (r: string)
    ensures |r| <= |s|
    ensures forall i :: 0 <= i < |r| ==> r[i] != c
    ensures multiset(r) == multiset(s)[c := 0]
  {
    if s == [] then []
    else
      assert s == [s[0]] + s[1..];
      if s[0] == c then RemoveChar(s[1..], c)
      else [s[0]] + RemoveChar(s[1..], c)
  }

  /** Removal works piecewise, so the kept characters stay in their order. */
  lemma {:induction false} RemoveCharAppend(a: string, b: string, c: char)
    ensures RemoveChar(a + b, c) == RemoveChar(a, c) + RemoveChar(b, c)
    decreases |a|
  {
    if a == [] {
      assert a + b == b;
    } else {
      assert (a + b)[0] == a[0] && (a + b)[1..] == a[1..] + b;
      RemoveCharAppend(a[1..], b, c);
    }
  }

  /** `s.replace(target, replacement, 1)` for a non-empty `target`. */
  function ReplaceFirst(s: string, target: string, replacement: string): string
    requires target != []
    decreases |s|
  {
    if StartsWith(s, target) then replacement + s[|target|..]
    else if s == [] then []
    else [s[0]] + ReplaceFirst(s[1..], target, replacement)
  }

  /** The length of the run of non-whitespace characters `s` starts with. */
  function NonSpaceRun(s: string): (n: nat)
    ensures n <= |s|
    ensures forall i :: 0 <= i < n ==> !IsSpace(s[i])
    ensures n == |s| || IsSpace(s[n])
  {
    if s == [] || IsSpace(s[0]) then 0 else 1 + NonSpaceRun(s[1..])
  }

  /** `s.split()`: the maximal runs of non-whitespace, in order. */
  function Words(s: string): (ws: seq<string>)
    ensures forall k :: 0 <= k < |ws| ==> ws[k] != [] && NoSpace(ws[k])
    decreases |s|
  {
    if s == [] then []
    else if IsSpace(s[0]) then Words(s[1..])
    else
      var n := NonSpaceRun(s);
      [s[..n]] + Words(s[n..])
  }

  /** `sep.join(parts)` */
  function Join(parts: seq<string>, sep: string): string {
    if |parts| == 0 then ""
    else if |parts| == 1 then parts[0]
    else parts[0] + sep + Join(parts[1..], sep)
  }

  /** `c` does not occur in `s`. */
  predicate Avoids(s: string, c: char) {
    forall i :: 0 <= i < |s| ==> s[i] != c
  }

  /** `split()` only regroups characters, so a character absent from `s` is absent from its words. */
  lemma {:induction false} WordsAvoid(s: string, c: char)
    requires Avoids(s, c)
    ensures forall k :: 0 <= k < |Words(s)| ==> Avoids(Words(s)[k], c)
    decreases |s|
  {
    if s != [] {
      if IsSpace(s[0]) {
        WordsAvoid(s[1..], c);
      } else {
        var n := NonSpaceRun(s);
        WordsAvoid(s[n..], c);
        assert Words(s) == [s[..n]] + Words(s[n..]);
      }
    }
  }

  /** Case mapping changes letters only. */
  lemma CapitalizeAvoids(w: string, c: char)
    requires Avoids(w, c) && !('A' <= c <= 'Z') && !('a' <= c <= 'z')
    ensures Avoids(Capitalize(w), c)
  {
    var r := Capitalize(w);
    forall i | 0 <= i < |r| ensures r[i] != c {
      if i == 0 {
        assert r[0] == UpperChar(w[0]);
      } else {
        assert r[i] == LowerChar(w[i]);
      }
    }
  }

  /** Case mapping turns no character into whitespace. */
  lemma CapitalizeNoSpace(w: string)
    requires NoSpace(w)
    ensures NoSpace(Capitalize(w))
  {
    var r := Capitalize(w);
    forall i | 0 <= i < |r| ensures !IsSpace(r[i]) {
      if i == 0 {
        assert r[0] == UpperChar(w[0]);
      } else {
        assert r[i] == LowerChar(w[i]);
      }
    }
  }

  /** A character absent from the separator and from every part is absent from the join. */
  lemma {:induction false} JoinAvoids(parts: seq<string>, sep: string, c: char)
    requires Avoids(sep, c)
    requires forall k :: 0 <= k < |parts| ==> Avoids(parts[k], c)
    ensures Avoids(Join(parts, sep), c)
  {
    if |parts| > 1 {
      JoinAvoids(parts[1..], sep, c);
      var rest := Join(parts[1..], sep);
      var r := parts[0] + sep + rest;
      forall i | 0 <= i < |r| ensures r[i] != c {
        if i < |parts[0]| {
          assert r[i] == parts[0][i];
        } else if i < |parts[0]| + |sep| {
          assert r[i] == sep[i - |parts[0]|];
        } else {
          assert r[i] == rest[i - |parts[0]| - |sep|];
        }
      }
    }
  }

  /**
   * Words separated by single spaces: no whitespace at either end, and every
   * whitespace character is a plain space between two non-whitespace ones.
   */
  predicate WellSpaced(r: string) {
    && (r == [] || (!IsSpace(r[0]) && !IsSpace(r[|r| - 1])))
    && forall i :: 0 <= i < |r| && IsSpace(r[i]) ==>
         r[i] == ' ' && 0 < i < |r| - 1 && !IsSpace(r[i - 1]) && !IsSpace(r[i + 1])
  }

  /** `' '.join(words)` of non-empty words without whitespace is well spaced. */
  lemma {:induction false} JoinWellSpaced(parts: seq<string>)
    requires forall k :: 0 <= k < |parts| ==> parts[k] != [] && NoSpace(parts[k])
    ensures WellSpaced(Join(parts, " "))
  {
    if |parts| == 1 {
      assert Join(parts, " ") == parts[0];
    } else if |parts| > 1 {
      JoinWellSpaced(parts[1..]);
      var p := parts[0];
      var rest := Join(parts[1..], " ");
      assert rest != [] by {
        assert parts[1..][0] == parts[1];
        JoinStartsWithFirst(parts[1..], " ");
      }
      var r := p + " " + rest;
      assert Join(parts, " ") == r;
      assert forall i :: 0 <= i < |p| ==> r[i] == p[i];
      forall i | 0 <= i < |r| && IsSpace(r[i])
        ensures r[i] == ' ' && 0 < i < |r| - 1 && !IsSpace(r[i - 1]) && !IsSpace(r[i + 1])
      {
        if i == |p| {
          assert r[i - 1] == p[|p| - 1];
          assert r[i + 1] == rest[0];
        } else if i > |p| {
          var j := i - |p| - 1;
          assert r[i] == rest[j];
          assert 0 < j < |rest| - 1 && !IsSpace(rest[j - 1]) && !IsSpace(rest[j + 1]);
          assert r[i - 1] == rest[j - 1] && r[i + 1] == rest[j + 1];
        }
      }
      assert r[0] == p[0];
      assert r[|r| - 1] == rest[|rest| - 1];
    }
  }

  /** A word without whitespace, followed by whitespace or the end, is one run. */
  lemma {:induction false} NonSpaceRunOf(w: string, t: string)
    requires NoSpace(w)
    requires t == [] || IsSpace(t[0])
    ensures NonSpaceRun(w + t) == |w|
    decreases |w|
  {
    if w == [] {
      assert w + t == t;
    } else {
      assert (w + t)[0] == w[0] && (w + t)[1..] == w[1..] + t;
      NonSpaceRunOf(w[1..], t);
    }
  }

  /** `' '.join(words).split()` gives the words back, when they are non-empty and without whitespace. */
  lemma {:induction false} WordsOfJoin(parts: seq<string>)
    requires forall k :: 0 <= k < |parts| ==> parts[k] != [] && NoSpace(parts[k])
    ensures Words(Join(parts, " ")) == parts
  {
    if |parts| == 1 {
      var w := parts[0];
      NonSpaceRunOf(w, []);
      assert w + [] == w && w[..|w|] == w && w[|w|..] == [];
    } else if |parts| > 1 {
      var w := parts[0];
      var rest := Join(parts[1..], " ");
      var tail := " " + rest;
      var s := w + tail;
      assert Join(parts, " ") == s;
      NonSpaceRunOf(w, tail);
      assert s[..|w|] == w && s[|w|..] == tail;
      assert Words(s) == [w] + Words(tail);
      assert tail[1..] == rest;
      assert Words(tail) == Words(rest);
      WordsOfJoin(parts[1..]);
    }
  }

  /** A join starts with its first part. */
  lemma {:induction false} JoinStartsWithFirst(parts: seq<string>, sep: string)
    requires |parts| > 0
    ensures StartsWith(Join(parts, sep), parts[0])
  {
    if |parts| > 1 {
      assert Join(parts, sep) == parts[0] + (sep + Join(parts[1..], sep));
    }
  }

  function DigitChar(d: nat): char
    requires d < 10
  {
    "0123456789"[d]
  }

  /** `str(n)` for a natural number. */
  function NatToString(n: nat): (r: string)
    ensures r != []
  {
    if n < 10 then [DigitChar(n)] else NatToString(n / 10) + [DigitChar(n % 10)]
  }

  /** `str(i)` */
  function IntToString(i: int): string {
    if i < 0 then "-" + NatToString(-i) else NatToString(i)
  }
}

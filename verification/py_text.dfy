/** The slice of Python's `str` behaviour that the server relies on:
    `isspace`, `strip`, `split()` with no separator, `sep.join`, slicing `s[:n]`,
    `sub in s`, `replace(c, '')`, `lower()` and `str(int)`. */
module PyText {

  /** Python's `str.isspace` for one character (the Py_UNICODE_ISSPACE table). */
  predicate IsSpace(c: char) {
    || ('\t' <= c <= '\r')
    || ('\U{1C}' <= c <= ' ')
    || c == '\U{85}' || c == '\U{A0}' || c == '\U{1680}'
    || ('\U{2000}' <= c <= '\U{200A}')
    || c == '\U{2028}' || c == '\U{2029}' || c == '\U{202F}' || c == '\U{205F}' || c == '\U{3000}'
  }

  /** A word as `str.split()` produces it: non-empty and free of whitespace. */
  predicate IsWord(w: string) {
    |w| > 0 && forall i :: 0 <= i < |w| ==> !IsSpace(w[i])
  }

  predicate StartsWith(s: string, p: string) {
    |p| <= |s| && s[..|p|] == p
  }

  /** `sub in s`. */
  predicate Contains(s: string, sub: string)
    decreases |s|
  {
    StartsWith(s, sub) || (|s| > 0 && Contains(s[1..], sub))
  }

  /** `s.lstrip()`. */
  function LStrip(s: string): string {
    if |s| == 0 || !IsSpace(s[0]) then s else LStrip(s[1..])
  }

  /** `s.rstrip()`. */
  function RStrip(s: string): string {
    if |s| == 0 || !IsSpace(s[|s| - 1]) then s else RStrip(s[..|s| - 1])
  }

  /** `s.strip()`. */
  function Strip(s: string): string {
    RStrip(LStrip(s))
  }

  /** `lstrip` drops exactly the leading whitespace. */
  lemma {:induction false} LStripSpec(s: string)
    ensures var r := LStrip(s);
      && |r| <= |s| && r == s[|s| - |r|..]
      && (forall i :: 0 <= i < |s| - |r| ==> IsSpace(s[i]))
      && (|r| == 0 || !IsSpace(r[0]))
  {
    if |s| > 0 && IsSpace(s[0]) {
      LStripSpec(s[1..]);
    }
  }

  /** `rstrip` drops exactly the trailing whitespace. */
  lemma {:induction false} RStripSpec(s: string)
    ensures var r := RStrip(s);
      && |r| <= |s| && r == s[..|r|]
      && (forall i :: |r| <= i < |s| ==> IsSpace(s[i]))
      && (|r| == 0 || !IsSpace(r[|r| - 1]))
  {
    if |s| > 0 && IsSpace(s[|s| - 1]) {
      RStripSpec(s[..|s| - 1]);
    }
  }

  /** `strip` leaves an infix of `s` with no whitespace at either end, dropping only
      whitespace; a string without surrounding whitespace is left alone. */
  lemma StripSpec(s: string)
    ensures var r := Strip(s);
      && |r| <= |s|
      && (|r| == 0 || (!IsSpace(r[0]) && !IsSpace(r[|r| - 1])))
      && (exists i :: 0 <= i <= |s| - |r| && s[i..][..|r|] == r)
      && (forall c :: c in r ==> c in s)
  {
    var l := LStrip(s);
    LStripSpec(s);
    RStripSpec(l);
    var r := RStrip(l);
    var i := |s| - |l|;
    assert s[i..] == l;
    assert s[i..][..|r|] == r;
    forall c | c in r ensures c in s {
      var j :| 0 <= j < |r| && r[j] == c;
      assert s[i + j] == c;
    }
  }

  /** `bool(s.strip())`: the string holds a non-whitespace character. */
  lemma {:induction false} StripEmptyIff(s: string)
    ensures Strip(s) == "" <==> forall i :: 0 <= i < |s| ==> IsSpace(s[i])
  {
    var l := LStrip(s);
    LStripSpec(s);
    RStripSpec(l);
    if RStrip(l) == "" {
      assert l == "";
    }
  }

  /** `lstrip` removes a whitespace prefix and stops at the first other character. */
  lemma {:induction false} LStripPadded(w: string, x: string)
    requires forall i :: 0 <= i < |w| ==> IsSpace(w[i])
    requires |x| == 0 || !IsSpace(x[0])
    ensures LStrip(w + x) == x
  {
    if |w| == 0 {
      assert w + x == x;
    } else {
      assert (w + x)[1..] == w[1..] + x;
      LStripPadded(w[1..], x);
    }
  }

  /** `rstrip` removes a whitespace suffix and stops at the last other character. */
  lemma {:induction false} RStripPadded(x: string, w: string)
    requires forall i :: 0 <= i < |w| ==> IsSpace(w[i])
    requires |x| == 0 || !IsSpace(x[|x| - 1])
    ensures RStrip(x + w) == x
  {
    if |w| == 0 {
      assert x + w == x;
    } else {
      var xw := x + w;
      assert xw[|xw| - 1] == w[|w| - 1];
      assert xw[..|xw| - 1] == x + w[..|w| - 1];
      RStripPadded(x, w[..|w| - 1]);
    }
  }

  /** `strip` recovers a string with no surrounding whitespace from any whitespace
      padding around it; with empty padding, such a string is left alone. */
  lemma StripPadded(pre: string, x: string, post: string)
    requires forall i :: 0 <= i < |pre| ==> IsSpace(pre[i])
    requires forall i :: 0 <= i < |post| ==> IsSpace(post[i])
    requires |x| == 0 || (!IsSpace(x[0]) && !IsSpace(x[|x| - 1]))
    ensures Strip(pre + x + post) == x
  {
    if |x| == 0 {
      var w := pre + post;
      assert pre + x + post == w + x;
      assert forall i :: 0 <= i < |w| ==> IsSpace(w[i]) by {
        forall i | 0 <= i < |w| ensures IsSpace(w[i]) {
          if i >= |pre| { assert w[i] == post[i - |pre|]; }
        }
      }
      LStripPadded(w, x);
    } else {
      assert pre + x + post == pre + (x + post);
      LStripPadded(pre, x + post);
      RStripPadded(x, post);
    }
  }

  /** `s.replace(c, '')` for a one-character `c`: every other character, in order. */
  function RemoveAll(s: string, c: char): (r: string)
    ensures forall i :: 0 <= i < |r| ==> r[i] != c
    ensures |r| <= |s|
    ensures (forall i :: 0 <= i < |s| ==> s[i] != c) ==> r == s
  {
    if |s| == 0 then ""
    else if s[0] == c then RemoveAll(s[1..], c)
    else [s[0]] + RemoveAll(s[1..], c)
  }

  /** Removing a character distributes over concatenation. */
  lemma {:induction false} RemoveAllAppend(a: string, b: string, c: char)
    ensures RemoveAll(a + b, c) == RemoveAll(a, c) + RemoveAll(b, c)
  {
    if |a| == 0 {
      assert a + b == b;
    } else {
      assert (a + b)[0] == a[0];
      assert (a + b)[1..] == a[1..] + b;
      RemoveAllAppend(a[1..], b, c);
    }
  }

  /** Python's `s[:n]` for `n >= 0`. */
  function Prefix<T>(s: seq<T>, n: nat): (r: seq<T>)
    ensures |r| <= n
    ensures |s| <= n ==> r == s
    ensures n < |s| ==> |r| == n
    ensures r == s[..|r|]
  {
    if |s| <= n then s else s[..n]
  }

  /** The longest whitespace-free prefix of `s`. */
  function TakeWord(s: string): (w: string)
    ensures |w| <= |s| && w == s[..|w|]
    ensures forall i :: 0 <= i < |w| ==> !IsSpace(w[i])
    ensures |w| < |s| ==> IsSpace(s[|w|])
  {
    if |s| == 0 || IsSpace(s[0]) then "" else [s[0]] + TakeWord(s[1..])
  }

  /** `s.split()`: the maximal runs of non-whitespace characters, in order. */
  function Split(s: string): (ws: seq<string>)
    ensures forall i :: 0 <= i < |ws| ==> IsWord(ws[i])
    decreases |s|
  {
    if |s| == 0 then []
    else if IsSpace(s[0]) then Split(s[1..])
    else
      var w := TakeWord(s);
      [w] + Split(s[|w|..])
  }

  /** `sep.join(ws)`. */
  function Join(ws: seq<string>, sep: string): string {
    if |ws| == 0 then ""
    else if |ws| == 1 then ws[0]
    else ws[0] + sep + Join(ws[1..], sep)
  }

  /** A join starts with its first piece. */
  lemma {:induction false} JoinStartsWith(ws: seq<string>, sep: string)
    requires |ws| > 0
    ensures StartsWith(Join(ws, sep), ws[0])
  {
    if |ws| > 1 {
      assert Join(ws, sep) == ws[0] + (sep + Join(ws[1..], sep));
    }
  }

  /** Flattening a sequence of sequences: `list.extend` applied in order. */
  function Concat<T>(xss: seq<seq<T>>): seq<T> {
    if |xss| == 0 then [] else xss[0] + Concat(xss[1..])
  }

  /** `str.lower()` restricted to ASCII letters. */
  function AsciiLower(s: string): (r: string)
    ensures |r| == |s|
    ensures forall i :: 0 <= i < |s| ==> r[i] == (if 'A' <= s[i] <= 'Z' then (s[i] - 'A' + 'a') as char else s[i])
  {
    if |s| == 0 then "" else [if 'A' <= s[0] <= 'Z' then (s[0] - 'A' + 'a') as char else s[0]] + AsciiLower(s[1..])
  }

  predicate IsDigit(c: char) {
    '0' <= c <= '9'
  }

  predicate IsLowerHex(c: char) {
    IsDigit(c) || 'a' <= c <= 'f'
  }

  /** `str(n)` for a non-negative integer. */
  function NatToString(n: nat): (r: string)
    ensures |r| >= 1
    ensures forall i :: 0 <= i < |r| ==> IsDigit(r[i])
  {
    if n < 10 then ["0123456789"[n]] else NatToString(n / 10) + ["0123456789"[n % 10]]
  }

  /** `int(s)` for a string of decimal digits: the partner of `NatToString`. */
  function DigitsValue(s: string): nat
    requires forall i :: 0 <= i < |s| ==> IsDigit(s[i])
  {
    if |s| == 0 then 0
    else
      var c := s[|s| - 1];
      assert IsDigit(c);
      10 * DigitsValue(s[..|s| - 1]) + (c as int - '0' as int)
  }

  /** Reading back the decimal text of `n` gives `n`. */
  lemma {:induction false} NatToStringRoundTrip(n: nat)
    ensures DigitsValue(NatToString(n)) == n
  {
    if n >= 10 {
      NatToStringRoundTrip(n / 10);
      var s := NatToString(n);
      assert s[..|s| - 1] == NatToString(n / 10);
    }
  }

  /** Different numbers print differently, so ids built from them are distinct. */
  lemma NatToStringInjective(m: nat, n: nat)
    requires NatToString(m) == NatToString(n)
    ensures m == n
  {
    NatToStringRoundTrip(m);
    NatToStringRoundTrip(n);
  }

  /** `list.extend` distributes over concatenation of the lists of pieces. */
  lemma {:induction false} ConcatAppend<T>(a: seq<seq<T>>, b: seq<seq<T>>)
    ensures Concat(a + b) == Concat(a) + Concat(b)
  {
    if |a| == 0 {
      assert a + b == b;
    } else {
      ConcatAppend(a[1..], b);
      assert (a + b)[0] == a[0];
      assert (a + b)[1..] == a[1..] + b;
      assert Concat(a + b) == a[0] + Concat(a[1..] + b);
      assert Concat(a) == a[0] + Concat(a[1..]);
    }
  }

  /** Position of piece `i`'s first element in `Concat(xss)`. */
  function Offset<T>(xss: seq<seq<T>>, i: nat): nat
    requires i <= |xss|
  {
    if i == 0 then 0 else |xss[0]| + Offset(xss[1..], i - 1)
  }

  /** The concatenation is as long as all pieces together. */
  lemma {:induction false} ConcatLength<T>(xss: seq<seq<T>>)
    ensures |Concat(xss)| == Offset(xss, |xss|)
  {
    if |xss| > 0 {
      ConcatLength(xss[1..]);
    }
  }

  /** Element `j` of piece `i` sits at position `Offset(xss, i) + j` of the concatenation. */
  lemma {:induction false} ConcatAt<T>(xss: seq<seq<T>>, i: nat, j: nat)
    requires i < |xss| && j < |xss[i]|
    ensures Offset(xss, i) + j < |Concat(xss)| && Concat(xss)[Offset(xss, i) + j] == xss[i][j]
  {
    ConcatLength(xss[1..]);
    assert Concat(xss) == xss[0] + Concat(xss[1..]);
    if i > 0 {
      ConcatAt(xss[1..], i - 1, j);
    }
  }

  /** Cutting a sequence into one-element pieces and re-joining them loses nothing. */
  lemma {:induction false} ConcatSingletons<T>(xs: seq<T>)
    ensures Concat(seq(|xs|, i requires 0 <= i < |xs| => [xs[i]])) == xs
  {
    if |xs| > 0 {
      var parts := seq(|xs|, i requires 0 <= i < |xs| => [xs[i]]);
      ConcatSingletons(xs[1..]);
      assert parts[1..] == seq(|xs[1..]|, i requires 0 <= i < |xs[1..]| => [xs[1..][i]]);
    }
  }

  /** A whitespace-free word followed by whitespace or nothing is what `TakeWord` reads. */
  lemma {:induction false} TakeWordOf(w: string, t: string)
    requires forall i :: 0 <= i < |w| ==> !IsSpace(w[i])
    requires |t| == 0 || IsSpace(t[0])
    ensures TakeWord(w + t) == w
  {
    if |w| > 0 {
      assert (w + t)[1..] == w[1..] + t;
      TakeWordOf(w[1..], t);
    }
  }

  /** Splitting a single-space join of words gives back exactly those words. */
  lemma {:induction false} SplitJoin(ws: seq<string>)
    requires forall i :: 0 <= i < |ws| ==> IsWord(ws[i])
    ensures Split(Join(ws, " ")) == ws
  {
    if |ws| == 1 {
      TakeWordOf(ws[0], "");
      assert ws[0] + "" == ws[0];
      assert ws[0][|ws[0]|..] == "";
      assert Split(ws[0]) == [ws[0]] + Split("");
    } else if |ws| > 1 {
      var rest := Join(ws[1..], " ");
      var s := ws[0] + " " + rest;
      TakeWordOf(ws[0], " " + rest);
      assert s == ws[0] + (" " + rest);
      assert s[|ws[0]|..] == " " + rest;
      assert (" " + rest)[1..] == rest;
      SplitJoin(ws[1..]);
    }
  }

  /** `" ".join(s.split())` is a fixed point of whitespace normalisation. */
  lemma NormaliseIdempotent(s: string)
    ensures Split(Join(Split(s), " ")) == Split(s)
  {
    SplitJoin(Split(s));
  }
}

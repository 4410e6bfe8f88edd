/** String helpers standing in for the JavaScript built-ins the core uses:
    `Number.prototype.toString`, `parseInt`, `String.prototype.trim`,
    `startsWith`, `split(" ")` and an ASCII `toUpperCase`. */
module Text {
  import opened Types

  // ---------------------------------------------------------------- decimal

  predicate IsDigit(c: char) { '0' <= c <= '9' }

  function DigitChar(d: nat): (c: char)
    requires d < 10
    ensures IsDigit(c) && DigitValue(c) == d
  {
    ['0', '1', '2', '3', '4', '5', '6', '7', '8', '9'][d]
  }

  function DigitValue(c: char): nat
    requires IsDigit(c)
  {
    (c as int - '0' as int) as nat
  }

  predicate AllDigits(s: string)
  {
    forall i :: 0 <= i < |s| ==> IsDigit(s[i])
  }

  /** The value of a string of decimal digits, most significant first. */
  function DigitsValue(s: string): nat
    requires AllDigits(s)
  {
    if s == [] then 0 else DigitsValue(s[..|s| - 1]) * 10 + DigitValue(s[|s| - 1])
  }

  /** Decimal rendering of a natural number, without leading zeros. */
  function NatToString(n: nat): (s: string)
    ensures |s| > 0 && AllDigits(s)
    ensures n < 10 <==> |s| == 1
  {
    if n < 10 then [DigitChar(n)] else NatToString(n / 10) + [DigitChar(n % 10)]
  }

  /** `n.toString()` for an integer-valued number. */
  function IntToString(n: int): (s: string)
    ensures |s| > 0
    ensures s[0] == '-' <==> n < 0
  {
    if n < 0 then "-" + NatToString(-n) else NatToString(n)
  }

  lemma {:induction false} NatToStringValue(n: nat)
    ensures DigitsValue(NatToString(n)) == n
  {
    var s := NatToString(n);
    if n >= 10 {
      NatToStringValue(n / 10);
      assert s[..|s| - 1] == NatToString(n / 10);
    }
  }

  /** Number of leading characters of `s` that are decimal digits. */
  function DigitRun(s: string): (k: nat)
    ensures k <= |s| && AllDigits(s[..k])
    ensures k < |s| ==> !IsDigit(s[k])
  {
    if s == [] || !IsDigit(s[0]) then 0
    else
      var k := 1 + DigitRun(s[1..]);
      assert s[..k] == [s[0]] + s[1..][..k - 1];
      k
  }

  lemma {:induction false} DigitRunAll(s: string)
    requires AllDigits(s)
    ensures DigitRun(s) == |s|
  {
    if s != [] {
      DigitRunAll(s[1..]);
    }
  }

  /** Number of leading whitespace characters of `s`. */
  function SpaceRun(s: string): (k: nat)
    ensures k <= |s|
    ensures forall i :: 0 <= i < k ==> IsWhitespace(s[i])
    ensures k < |s| ==> !IsWhitespace(s[k])
  {
    if s == [] || !IsWhitespace(s[0]) then 0 else 1 + SpaceRun(s[1..])
  }

  /** Base-10 `parseInt`: skip leading whitespace, read an optional sign and the
      longest run of digits after it, ignore the rest. No digits gives NaN (`None`). */
  function ParseInt(s: string): (r: Option<int>)
    ensures r.None? <==>
      var t := s[SpaceRun(s)..];
      var u := if t != [] && (t[0] == '-' || t[0] == '+') then t[1..] else t;
      u == [] || !IsDigit(u[0])
  {
    var t := s[SpaceRun(s)..];
    var neg := t != [] && t[0] == '-';
    var u := if t != [] && (t[0] == '-' || t[0] == '+') then t[1..] else t;
    var k := DigitRun(u);
    if k == 0 then None
    else
      var v: int := DigitsValue(u[..k]);
      Some(if neg then -v else v)
  }

  /** `parseInt` reads back exactly what `toString` wrote. */
  lemma ParseIntOfIntToString(n: int)
    ensures ParseInt(IntToString(n)) == Some(n)
  {
    var m: nat := if n < 0 then -n else n;
    var d := NatToString(m);
    var s := IntToString(n);
    assert SpaceRun(s) == 0 by { assert !IsWhitespace(s[0]); }
    var t := s[SpaceRun(s)..];
    assert t == s;
    var u := if t != [] && (t[0] == '-' || t[0] == '+') then t[1..] else t;
    assert u == d by {
      if n < 0 { assert s == "-" + d; } else { assert s == d; assert d[0] != '-' && d[0] != '+'; }
    }
    DigitRunAll(d);
    assert d[..|d|] == d;
    NatToStringValue(m);
  }

  // ---------------------------------------------------------------- whitespace

  /** The characters `String.prototype.trim` removes (the common ones). */
  predicate IsWhitespace(c: char)
  {
    c == ' ' || c == '\t' || c == '\n' || c == '\r' || c == '\U{000B}' || c == '\U{000C}'
    || c == '\U{00A0}' || c == '\U{FEFF}' || c == '\U{2028}' || c == '\U{2029}'
  }

  predicate Blank(s: string)
  {
    forall i :: 0 <= i < |s| ==> IsWhitespace(s[i])
  }

  function TrimStart(s: string): (r: string)
    ensures |r| <= |s| && r == s[|s| - |r|..]
    ensures r != [] ==> !IsWhitespace(r[0])
  {
    if s != [] && IsWhitespace(s[0]) then TrimStart(s[1..]) else s
  }

  function TrimEnd(s: string): (r: string)
    ensures |r| <= |s| && r == s[..|r|]
    ensures r != [] ==> !IsWhitespace(r[|r| - 1])
  {
    if s != [] && IsWhitespace(s[|s| - 1]) then TrimEnd(s[..|s| - 1]) else s
  }

  /** `s.trim()`. */
  function Trim(s: string): string
  {
    TrimEnd(TrimStart(s))
  }

  lemma {:induction false} TrimStartBlank(s: string)
    ensures TrimStart(s) == [] <==> Blank(s)
  {
    if s == [] {
    } else if !IsWhitespace(s[0]) {
      assert TrimStart(s) == s;
    } else {
      TrimStartBlank(s[1..]);
      assert TrimStart(s) == TrimStart(s[1..]);
      BlankTail(s);
    }
  }

  /** A string that starts with whitespace is blank exactly when the rest is. */
  lemma BlankTail(s: string)
    requires s != [] && IsWhitespace(s[0])
    ensures Blank(s) <==> Blank(s[1..])
  {
    var t := s[1..];
    if Blank(t) {
      forall i | 0 <= i < |s| ensures IsWhitespace(s[i]) {
        if i > 0 { assert s[i] == t[i - 1]; }
      }
    }
    if Blank(s) {
      forall i | 0 <= i < |t| ensures IsWhitespace(t[i]) {
        assert t[i] == s[i + 1];
      }
    }
  }

  /** `!s.trim()` holds exactly for the strings made of whitespace only. */
  lemma TrimEmptyIffBlank(s: string)
    ensures Trim(s) == [] <==> Blank(s)
  {
    TrimStartBlank(s);
    var t := TrimStart(s);
    if t != [] {
      assert !IsWhitespace(t[0]);
      assert TrimEnd(t) != [] by {
        var e := TrimEnd(t);
        if e == [] {
          TrimEndEmpty(t);
        }
      }
    }
  }

  lemma {:induction false} TrimEndEmpty(t: string)
    requires TrimEnd(t) == []
    ensures Blank(t)
  {
    if t != [] {
      TrimEndEmpty(t[..|t| - 1]);
      forall i | 0 <= i < |t| ensures IsWhitespace(t[i]) {
        if i < |t| - 1 { assert t[i] == t[..|t| - 1][i]; }
      }
    }
  }

  // ---------------------------------------------------------------- paths

  predicate StartsWith(s: string, prefix: string)
  {
    |prefix| <= |s| && s[..|prefix|] == prefix
  }

  // ---------------------------------------------------------------- words

  /** Index of the first ' ' in `s`, or `|s|` when there is none. */
  function SpaceIndex(s: string): (k: nat)
    ensures k <= |s|
    ensures forall i :: 0 <= i < k ==> s[i] != ' '
    ensures k < |s| ==> s[k] == ' '
  {
    if s == [] || s[0] == ' ' then 0 else 1 + SpaceIndex(s[1..])
  }

  /** `s.split(" ")`: the pieces between single spaces, empty pieces included. */
  function Split(s: string): (words: seq<string>)
    ensures |words| >= 1
    ensures forall w :: w in words ==> ' ' !in w
    decreases |s|
  {
    var k := SpaceIndex(s);
    var w := s[..k];
    assert ' ' !in w by {
      forall i | 0 <= i < |w| ensures w[i] != ' ' { assert w[i] == s[i]; }
    }
    if k == |s| then [w] else [w] + Split(s[k + 1..])
  }

  /** A word without spaces is not split. */
  lemma {:induction false} SpaceIndexNoSpace(w: string)
    requires ' ' !in w
    ensures SpaceIndex(w) == |w|
  {
    if w != [] {
      assert w[1..][..] == w[1..];
      assert forall c :: c in w[1..] ==> c in w;
      SpaceIndexNoSpace(w[1..]);
    }
  }

  /** A space-free word, one space, and the rest: the word is the first piece. */
  lemma {:induction false} SpaceIndexAfterWord(a: string, rest: string)
    requires ' ' !in a
    ensures SpaceIndex(a + [' '] + rest) == |a|
  {
    if a != [] {
      assert (a + [' '] + rest)[1..] == a[1..] + [' '] + rest;
      assert forall c :: c in a[1..] ==> c in a;
      SpaceIndexAfterWord(a[1..], rest);
    }
  }

  /** `words.join(sep)`. */
  function Join(words: seq<string>, sep: string): (s: string)
    ensures |words| == 1 ==> s == words[0]
    ensures words != [] ==> |s| >= |words[0]|
  {
    if words == [] then []
    else if |words| == 1 then words[0]
    else words[0] + sep + Join(words[1..], sep)
  }

  /** Joining the pieces of `split(" ")` with single spaces gives back the string. */
  lemma {:induction false} SplitJoin(s: string)
    ensures Join(Split(s), " ") == s
    decreases |s|
  {
    var k := SpaceIndex(s);
    if k == |s| {
      assert s[..k] == s;
    } else {
      var rest := Split(s[k + 1..]);
      SplitJoin(s[k + 1..]);
      var ws := [s[..k]] + rest;
      assert ws[0] == s[..k] && ws[1..] == rest && |ws| > 1;
      assert s == s[..k] + " " + s[k + 1..];
    }
  }

  /** Conversely, space-free words joined with single spaces split back into those words,
      so `split(" ")` is the only list of space-free pieces whose join is the string. */
  lemma {:induction false} JoinSplit(words: seq<string>)
    requires |words| >= 1 && forall i :: 0 <= i < |words| ==> ' ' !in words[i]
    ensures Split(Join(words, " ")) == words
  {
    var w := words[0];
    if |words| == 1 {
      SpaceIndexNoSpace(w);
      assert w[..|w|] == w;
    } else {
      var tail := words[1..];
      assert forall i :: 0 <= i < |tail| ==> ' ' !in tail[i] by {
        forall i | 0 <= i < |tail| ensures ' ' !in tail[i] { assert tail[i] == words[i + 1]; }
      }
      assert words == [w] + tail;
      calc {
        Split(Join(words, " "));
        == { JoinCons(words, " "); }
        Split(w + " " + Join(tail, " "));
        == { SplitAtWord(w, Join(tail, " ")); }
        [w] + Split(Join(tail, " "));
        == { JoinSplit(tail); }
        [w] + tail;
      }
    }
  }

  /** One step of the join: the first word, the separator, then the rest joined. */
  lemma JoinCons(words: seq<string>, sep: string)
    requires |words| > 1
    ensures Join(words, sep) == words[0] + sep + Join(words[1..], sep)
  {
  }

  /** A space-free word followed by a space is the first piece of the split. */
  lemma SplitAtWord(w: string, rest: string)
    requires ' ' !in w
    ensures Split(w + " " + rest) == [w] + Split(rest)
  {
    var s := w + " " + rest;
    SpaceIndexAfterWord(w, rest);
    assert s == w + [' '] + rest;
    assert s[..|w|] == w;
    assert s[|w| + 1..] == rest;
  }

  function CountChar(s: string, c: char): nat
  {
    if s == [] then 0 else (if s[0] == c then 1 else 0) + CountChar(s[1..], c)
  }

  lemma {:induction false} CountCharAppend(a: string, b: string, c: char)
    ensures CountChar(a + b, c) == CountChar(a, c) + CountChar(b, c)
  {
    if a == [] {
      assert a + b == b;
    } else {
      assert (a + b)[0] == a[0];
      assert (a + b)[1..] == a[1..] + b;
      CountCharAppend(a[1..], b, c);
    }
  }

  lemma {:induction false} CountCharNone(s: string, c: char)
    requires c !in s
    ensures CountChar(s, c) == 0
  {
    if s != [] {
      CountCharNone(s[1..], c);
    }
  }

  /** `split(" ")` yields one more piece than there are spaces. */
  lemma {:induction false} SplitCount(s: string)
    ensures |Split(s)| == CountChar(s, ' ') + 1
    decreases |s|
  {
    var k := SpaceIndex(s);
    CountCut(s, k, ' ');
    NoSpaceBefore(s);
    if k < |s| {
      var t := s[k..];
      assert t[0] == ' ' && t[1..] == s[k + 1..];
      SplitCount(s[k + 1..]);
    }
  }

  /** Counting a character in two halves of a cut. */
  lemma CountCut(s: string, k: nat, c: char)
    requires k <= |s|
    ensures CountChar(s, c) == CountChar(s[..k], c) + CountChar(s[k..], c)
  {
    assert s == s[..k] + s[k..];
    CountCharAppend(s[..k], s[k..], c);
  }

  /** The first piece holds no space. */
  lemma NoSpaceBefore(s: string)
    ensures CountChar(s[..SpaceIndex(s)], ' ') == 0
  {
    var w := s[..SpaceIndex(s)];
    assert ' ' !in w by {
      forall i | 0 <= i < |w| ensures w[i] != ' ' { assert w[i] == s[i]; }
    }
    CountCharNone(w, ' ');
  }

  // ---------------------------------------------------------------- case

  /** ASCII approximation of `toUpperCase` on one character. */
  function UpperChar(c: char): (u: char)
    ensures 'a' <= c <= 'z' ==> 'A' <= u <= 'Z' && u as int == c as int - 32
    ensures !('a' <= c <= 'z') ==> u == c
  {
    if 'a' <= c <= 'z' then (c as int - 32) as char else c
  }

  function Upper(s: string): (r: string)
    ensures |r| == |s|
    ensures forall i :: 0 <= i < |s| ==> r[i] == UpperChar(s[i])
  {
    if s == [] then [] else [UpperChar(s[0])] + Upper(s[1..])
  }
}

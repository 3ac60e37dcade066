/**
  The string functions the operator leans on: trimming, splitting and joining,
  slash-separated paths, and decimal numbers padded with zeros.
 */
module Text {

  predicate Lacks(s: string, c: char) {
    forall i | 0 <= i < |s| :: s[i] != c
  }

  // ---------- trimming ----------

  function TrimLeft(s: string, cut: char -> bool): (r: string)
    ensures |r| <= |s|
    ensures r != "" ==> !cut(r[0])
  {
    if s != "" && cut(s[0]) then TrimLeft(s[1..], cut) else s
  }

  function TrimRight(s: string, cut: char -> bool): (r: string)
    ensures |r| <= |s|
    ensures r != "" ==> !cut(r[|r| - 1])
  {
    if s != "" && cut(s[|s| - 1]) then TrimRight(s[..|s| - 1], cut) else s
  }

  function Trim(s: string, cut: char -> bool): string {
    TrimRight(TrimLeft(s, cut), cut)
  }

  lemma {:induction false} TrimLeftIsSuffix(s: string, cut: char -> bool)
    ensures TrimLeft(s, cut) == s[|s| - |TrimLeft(s, cut)|..]
  {
    if s != "" && cut(s[0]) {
      TrimLeftIsSuffix(s[1..], cut);
    }
  }

  lemma {:induction false} TrimRightIsPrefix(s: string, cut: char -> bool)
    ensures TrimRight(s, cut) == s[..|TrimRight(s, cut)|]
  {
    if s != "" && cut(s[|s| - 1]) {
      TrimRightIsPrefix(s[..|s| - 1], cut);
    }
  }

  lemma {:induction false} TrimLeftCuts(s: string, cut: char -> bool, i: nat)
    requires i < |s| - |TrimLeft(s, cut)|
    ensures cut(s[i])
  {
    if i > 0 {
      TrimLeftCuts(s[1..], cut, i - 1);
    }
  }

  lemma {:induction false} TrimRightCuts(s: string, cut: char -> bool, i: nat)
    requires |TrimRight(s, cut)| <= i < |s|
    ensures cut(s[i])
  {
    if i < |s| - 1 {
      TrimRightCuts(s[..|s| - 1], cut, i);
    }
  }

  /** What is trimmed off is what is to be cut, and nothing of that is left at either end. */
  lemma TrimCuts(s: string, cut: char -> bool) returns (lo: nat, hi: nat)
    ensures lo <= hi <= |s| && Trim(s, cut) == s[lo..hi]
    ensures forall i | 0 <= i < |s| && !(lo <= i < hi) :: cut(s[i])
    ensures lo < hi ==> !cut(s[lo]) && !cut(s[hi - 1])
  {
    var t := TrimLeft(s, cut);
    TrimLeftIsSuffix(s, cut);
    TrimRightIsPrefix(t, cut);
    lo := |s| - |t|;
    hi := lo + |TrimRight(t, cut)|;
    forall i | 0 <= i < |s| && !(lo <= i < hi) ensures cut(s[i]) {
      if i < lo {
        TrimLeftCuts(s, cut, i);
      } else {
        TrimRightCuts(t, cut, i - lo);
        assert t[i - lo] == s[i];
      }
    }
    if lo < hi {
      TrimRightKeepsFirst(t, cut);
    }
  }

  /** Trimming only cuts at the ends. */
  lemma TrimIsSlice(s: string, cut: char -> bool) returns (lo: nat, hi: nat)
    ensures lo <= hi <= |s| && Trim(s, cut) == s[lo..hi]
  {
    var t := TrimLeft(s, cut);
    TrimLeftIsSuffix(s, cut);
    TrimRightIsPrefix(t, cut);
    lo := |s| - |t|;
    hi := lo + |TrimRight(t, cut)|;
  }

  lemma TrimRightKeepsFirst(s: string, cut: char -> bool)
    requires TrimRight(s, cut) != ""
    ensures s != "" && TrimRight(s, cut)[0] == s[0]
  {
    TrimRightIsPrefix(s, cut);
  }

  // ---------- splitting and joining ----------

  function Split(s: string, sep: char): (r: seq<string>)
    ensures |r| > 0
  {
    if s == "" then [""]
    else if s[0] == sep then [""] + Split(s[1..], sep)
    else var rest := Split(s[1..], sep); [[s[0]] + rest[0]] + rest[1..]
  }

  function Join(parts: seq<string>, sep: string): string {
    if parts == [] then ""
    else if |parts| == 1 then parts[0]
    else parts[0] + sep + Join(parts[1..], sep)
  }

  lemma {:induction false} SplitLacks(s: string, sep: char)
    requires Lacks(s, sep)
    ensures Split(s, sep) == [s]
  {
    if s != "" {
      SplitLacks(s[1..], sep);
      assert [s[0]] + s[1..] == s;
    }
  }

  /** What one more character in front does to a split. */
  function Prepend(c: char, parts: seq<string>, sep: char): seq<string>
    requires parts != []
  {
    if c == sep then [""] + parts else [[c] + parts[0]] + parts[1..]
  }

  lemma {:induction false} SplitCons(c: char, s: string, sep: char)
    ensures Split([c] + s, sep) == Prepend(c, Split(s, sep), sep)
  {
    assert ([c] + s)[1..] == s;
  }

  lemma PrependConcat(c: char, left: seq<string>, right: seq<string>, sep: char)
    requires left != []
    ensures Prepend(c, left + right, sep) == Prepend(c, left, sep) + right
  {
    assert (left + right)[1..] == left[1..] + right;
  }

  lemma {:induction false} SplitAt(a: string, sep: char, b: string)
    ensures Split(a + [sep] + b, sep) == Split(a, sep) + Split(b, sep)
  {
    if a == "" {
      assert a + [sep] + b == [sep] + b;
      SplitCons(sep, b, sep);
    } else {
      var tail := a[1..] + [sep] + b;
      assert a + [sep] + b == [a[0]] + tail && a == [a[0]] + a[1..];
      SplitCons(a[0], tail, sep);
      SplitCons(a[0], a[1..], sep);
      SplitAt(a[1..], sep, b);
      PrependConcat(a[0], Split(a[1..], sep), Split(b, sep), sep);
    }
  }

  /** Splitting undoes joining, for parts that do not hold the separator. */
  lemma {:induction false} SplitJoin(parts: seq<string>, sep: char)
    requires parts != [] && forall p | p in parts :: Lacks(p, sep)
    ensures Split(Join(parts, [sep]), sep) == parts
  {
    SplitLacks(parts[0], sep);
    if |parts| > 1 {
      SplitJoin(parts[1..], sep);
      SplitAt(parts[0], sep, Join(parts[1..], [sep]));
    }
  }

  /** Every piece of a split is a slice without the separator. */
  lemma {:induction false} SplitPieces(s: string, sep: char, p: string) returns (i: nat, j: nat)
    requires p in Split(s, sep)
    ensures Lacks(p, sep) && i <= j <= |s| && p == s[i..j]
  {
    if s == "" || (s[0] == sep && p == "") {
      i, j := 0, 0;
    } else if s[0] == sep || p in Split(s[1..], sep)[1..] {
      i, j := SplitPieces(s[1..], sep, p);
      SliceOfTail(s, i, j);
      i, j := i + 1, j + 1;
    } else {
      var n := SplitHead(s[1..], sep);
      i, j := 0, n + 1;
    }
  }

  lemma SliceOfTail(s: string, i: nat, j: nat)
    requires s != "" && i <= j < |s|
    ensures s[1..][i..j] == s[i + 1..j + 1]
  {
  }

  lemma {:induction false} SplitHead(s: string, sep: char) returns (n: nat)
    ensures n <= |s| && Split(s, sep)[0] == s[..n] && Lacks(s[..n], sep)
  {
    if s == "" || s[0] == sep {
      n := 0;
    } else {
      n := SplitHead(s[1..], sep);
      assert s[..n + 1] == [s[0]] + s[1..][..n];
      n := n + 1;
    }
  }

  // ---------- paths ----------

  /**
    The stack discipline of path.Clean over the components of a path: empty and "."
    components vanish, ".." takes the previous component with it.
   */
  function CleanParts(parts: seq<string>, rooted: bool, kept: seq<string>): seq<string> {
    if parts == [] then kept
    else
      var p := parts[0];
      var kept' :=
        if p == "" || p == "." then kept
        else if p != ".." then kept + [p]
        else if kept != [] && kept[|kept| - 1] != ".." then kept[..|kept| - 1]
        else if rooted then kept
        else kept + [p];
      CleanParts(parts[1..], rooted, kept')
  }

  function Clean(p: string): string {
    var rooted := p != "" && p[0] == '/';
    var body := Join(CleanParts(Split(p, '/'), rooted, []), "/");
    if rooted then "/" + body else if body == "" then "." else body
  }

  /** path.Join of two elements. */
  function JoinPath(a: string, b: string): string {
    if a == "" && b == "" then ""
    else if a == "" then Clean(b)
    else if b == "" then Clean(a)
    else Clean(a + "/" + b)
  }

  predicate Proper(component: string) {
    component != "" && component != "." && component != ".."
  }

  /** The components of a path that mean something, when none of them is "..". */
  function Kept(parts: seq<string>): (r: seq<string>)
    ensures forall p | p in r :: p in parts && p != "" && p != "."
  {
    if parts == [] then []
    else (if parts[0] == "" || parts[0] == "." then [] else [parts[0]]) + Kept(parts[1..])
  }

  lemma {:induction false} CleanWithoutDotDot(parts: seq<string>, rooted: bool, kept: seq<string>)
    requires ".." !in parts
    ensures CleanParts(parts, rooted, kept) == kept + Kept(parts)
  {
    if parts != [] {
      var kept' := if parts[0] == "" || parts[0] == "." then kept else kept + [parts[0]];
      CleanWithoutDotDot(parts[1..], rooted, kept');
    }
  }

  lemma {:induction false} KeptConcat(a: seq<string>, b: seq<string>)
    ensures Kept(a + b) == Kept(a) + Kept(b)
  {
    if a != [] {
      KeptConcat(a[1..], b);
      assert (a + b)[1..] == a[1..] + b;
    } else {
      assert a + b == b;
    }
  }

  /**
    Joining a relative base without ".." and a proper component: the result is
    relative and its components are the meaningful ones of the base, then the component.
   */
  lemma JoinPathParts(base: string, dir: string)
    requires base == "" || base[0] != '/'
    requires ".." !in Split(base, '/')
    requires Proper(dir) && Lacks(dir, '/')
    ensures var r := JoinPath(base, dir);
            r != "" && r[0] != '/' && Split(r, '/') == Kept(Split(base, '/')) + [dir]
    ensures forall c | c in Kept(Split(base, '/')) + [dir] :: Proper(c)
  {
    SplitLacks(dir, '/');
    var parts := Split(base, '/');
    var p := if base == "" then dir else base + "/" + dir;
    if base != "" {
      SplitAt(base, '/', dir);
    }
    var kept := Kept(parts) + [dir];
    CleanWithoutDotDot(Split(p, '/'), false, []);
    KeptConcat(parts, [dir]);
    assert Kept([dir]) == [dir];
    assert CleanParts(Split(p, '/'), false, []) == kept;
    forall c | c in kept ensures Lacks(c, '/') {
      if c != dir {
        var _, _ := SplitPieces(base, '/', c);
      }
    }
    SplitJoin(kept, '/');
    assert kept[0] in kept;
    JoinHead(kept);
  }

  lemma JoinHead(parts: seq<string>)
    requires parts != [] && parts[0] != "" && Lacks(parts[0], '/')
    ensures Join(parts, "/") != "" && Join(parts, "/")[0] != '/'
  {
  }

  // ---------- decimals ----------

  function Digit(d: nat): char
    requires d < 10
  {
    '0' + d as char
  }

  predicate Digits(s: string) {
    forall i | 0 <= i < |s| :: '0' <= s[i] <= '9'
  }

  function Decimal(n: nat): (s: string)
    ensures s != "" && Digits(s)
  {
    if n < 10 then [Digit(n)] else Decimal(n / 10) + [Digit(n % 10)]
  }

  /** fmt's %0<width>d for a natural number. */
  function Padded(n: nat, width: nat): (s: string)
    ensures Digits(s) && |s| >= width && s != ""
  {
    PadTo(Decimal(n), width)
  }

  function PadTo(s: string, width: nat): (r: string)
    requires Digits(s)
    ensures Digits(r) && |r| >= width && |r| >= |s|
    ensures |s| <= width ==> |r| == width
    ensures |s| >= width ==> r == s
    decreases if |s| < width then width - |s| else 0
  {
    if |s| >= width then s else PadTo("0" + s, width)
  }

  function Value(s: string): nat
    requires Digits(s)
  {
    if s == "" then 0 else Value(s[..|s| - 1]) * 10 + (s[|s| - 1] - '0') as nat
  }

  lemma {:induction false} ValueOfDecimal(n: nat)
    ensures Value(Decimal(n)) == n
  {
    if n >= 10 {
      ValueOfDecimal(n / 10);
      assert Decimal(n)[..|Decimal(n)| - 1] == Decimal(n / 10);
    }
  }

  lemma {:induction false} ValueOfZero(s: string)
    requires Digits(s)
    ensures Value("0" + s) == Value(s)
  {
    if s != "" {
      ValueOfZero(s[..|s| - 1]);
      assert ("0" + s)[..|s|] == "0" + s[..|s| - 1];
    }
  }

  lemma {:induction false} ValueOfPad(s: string, width: nat)
    requires Digits(s)
    ensures Value(PadTo(s, width)) == Value(s)
    decreases if |s| < width then width - |s| else 0
  {
    if |s| < width {
      ValueOfPad("0" + s, width);
      ValueOfZero(s);
    }
  }

  /** Reading a padded number back gives the number, so padding is injective. */
  lemma ValueOfPadded(n: nat, width: nat)
    ensures Value(Padded(n, width)) == n
  {
    ValueOfPad(Decimal(n), width);
    ValueOfDecimal(n);
  }

  lemma PaddedInjective(m: nat, n: nat, width: nat)
    requires Padded(m, width) == Padded(n, width)
    ensures m == n
  {
    ValueOfPadded(m, width);
    ValueOfPadded(n, width);
  }

  /** A number of at most two digits takes exactly two places. */
  lemma FourPlaces(n: nat)
    requires n < 10_000
    ensures |Padded(n, 4)| == 4
  {
    assert n / 10 / 10 / 10 < 10;
    assert |Decimal(n / 10 / 10)| <= 2 && |Decimal(n / 10)| <= 3;
  }

  lemma TwoPlaces(n: nat)
    requires n < 100
    ensures |Padded(n, 2)| == 2
  {
    assert |Decimal(n)| <= 2;
  }

  /** The last occurrence of a separator cuts a string in only one way. */
  lemma CutIsUnique(a: string, b: string, a': string, b': string, sep: char)
    requires a + [sep] + b == a' + [sep] + b'
    requires Lacks(b, sep) && Lacks(b', sep)
    ensures a == a' && b == b'
  {
    var s := a + [sep] + b;
    assert s[|a|] == sep && s[|a'|] == sep;
    assert a == s[..|a|] && a' == s[..|a|];
    assert b == s[|a| + 1..] && b' == s[|a| + 1..];
  }
}

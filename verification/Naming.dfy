/**
  Where a run puts its output: the directory name, unique per run, and the sub-path
  of the persistent volume it is mounted at.
 */
module Naming {
  import opened Api
  import opened Text

  const CLUSTER_ID_SUFFIX_LENGTH := 12

  /** A moment in UTC, to the second. */
  datatype Timestamp = Timestamp(year: nat, month: nat, day: nat, hour: nat, minute: nat, second: nat)

  ghost predicate Calendar(t: Timestamp) {
    t.month < 100 && t.day < 100 && t.hour < 100 && t.minute < 100 && t.second < 100
  }

  /** The layout 20060102T150405Z. */
  function FormatTime(t: Timestamp): string {
    Padded(t.year, 4) + Padded(t.month, 2) + Padded(t.day, 2) + "T"
    + Padded(t.hour, 2) + Padded(t.minute, 2) + Padded(t.second, 2) + "Z"
  }

  function ClusterIdSuffix(clusterId: Option<string>): string {
    if clusterId.None? then ""
    else if |clusterId.value| > CLUSTER_ID_SUFFIX_LENGTH then clusterId.value[|clusterId.value| - CLUSTER_ID_SUFFIX_LENGTH..]
    else clusterId.value
  }

  const LOCAL := "must-gather.local"

  function Root(suffix: string): string {
    if suffix == "" then LOCAL else LOCAL + "." + suffix
  }

  function DirectoryName(suffix: string, now: Timestamp, draw: nat): string {
    Root(suffix) + "." + FormatTime(now) + "." + Padded(draw, 6)
  }

  /** The name is put together part by part; `clusterId` is None when it could not be read. */
  method GenerateDirectoryName(clusterId: Option<string>, now: Timestamp, draw: nat) returns (name: string)
    ensures name == DirectoryName(ClusterIdSuffix(clusterId), now, draw)
  {
    var parts := [LOCAL];
    var suffix := ClusterIdSuffix(clusterId);
    if suffix != "" {
      parts := parts + [suffix];
    }
    parts := parts + [FormatTime(now)];
    parts := parts + [Padded(draw, 6)];
    JoinSnoc(parts[..|parts| - 2], parts[|parts| - 2]);
    JoinSnoc(parts[..|parts| - 1], parts[|parts| - 1]);
    assert parts[..|parts| - 2] == if suffix == "" then [LOCAL] else [LOCAL, suffix];
    assert parts[..|parts| - 1] == parts[..|parts| - 2] + [parts[|parts| - 2]];
    assert parts == parts[..|parts| - 1] + [parts[|parts| - 1]];
    name := Join(parts, ".");
  }

  lemma {:induction false} JoinSnoc(parts: seq<string>, last: string)
    requires parts != []
    ensures Join(parts + [last], ".") == Join(parts, ".") + "." + last
  {
    if |parts| > 1 {
      JoinSnoc(parts[1..], last);
      assert (parts + [last])[1..] == parts[1..] + [last];
    }
  }

  // ---------- uniqueness ----------

  lemma TimeLacks(t: Timestamp, c: char)
    requires c == '.' || c == '/'
    ensures Lacks(FormatTime(t), c)
  {
  }

  lemma CancelRight(a: string, b: string, a': string, b': string)
    requires a + b == a' + b' && |b| == |b'|
    ensures a == a' && b == b'
  {
    assert a == (a + b)[..|a|] && a' == (a + b)[..|a|];
    assert b == (a + b)[|a|..] && b' == (a + b)[|a|..];
  }

  /** Two times are printed alike only if they are the same second. */
  lemma FormatTimeInjective(s: Timestamp, t: Timestamp)
    requires Calendar(s) && Calendar(t)
    requires FormatTime(s) == FormatTime(t)
    ensures s == t
  {
    TwoPlaces(s.month); TwoPlaces(s.day); TwoPlaces(s.hour); TwoPlaces(s.minute); TwoPlaces(s.second);
    TwoPlaces(t.month); TwoPlaces(t.day); TwoPlaces(t.hour); TwoPlaces(t.minute); TwoPlaces(t.second);
    var sDate, tDate := Padded(s.year, 4) + Padded(s.month, 2) + Padded(s.day, 2), Padded(t.year, 4) + Padded(t.month, 2) + Padded(t.day, 2);
    var sMinute, tMinute := sDate + "T" + Padded(s.hour, 2) + Padded(s.minute, 2), tDate + "T" + Padded(t.hour, 2) + Padded(t.minute, 2);
    CancelRight(sMinute + Padded(s.second, 2), "Z", tMinute + Padded(t.second, 2), "Z");
    CancelRight(sMinute, Padded(s.second, 2), tMinute, Padded(t.second, 2));
    CancelRight(sDate + "T" + Padded(s.hour, 2), Padded(s.minute, 2), tDate + "T" + Padded(t.hour, 2), Padded(t.minute, 2));
    CancelRight(sDate + "T", Padded(s.hour, 2), tDate + "T", Padded(t.hour, 2));
    CancelRight(sDate, "T", tDate, "T");
    CancelRight(Padded(s.year, 4) + Padded(s.month, 2), Padded(s.day, 2), Padded(t.year, 4) + Padded(t.month, 2), Padded(t.day, 2));
    CancelRight(Padded(s.year, 4), Padded(s.month, 2), Padded(t.year, 4), Padded(t.month, 2));
    PaddedInjective(s.year, t.year, 4);
    PaddedInjective(s.month, t.month, 2);
    PaddedInjective(s.day, t.day, 2);
    PaddedInjective(s.hour, t.hour, 2);
    PaddedInjective(s.minute, t.minute, 2);
    PaddedInjective(s.second, t.second, 2);
  }

  /** Directory names collide only for the same cluster suffix, second and random draw. */
  lemma DirectoryNameInjective(s: string, t: Timestamp, d: nat, s': string, t': Timestamp, d': nat)
    requires Calendar(t) && Calendar(t')
    requires DirectoryName(s, t, d) == DirectoryName(s', t', d')
    ensures s == s' && t == t' && d == d'
  {
    TimeLacks(t, '.');
    TimeLacks(t', '.');
    CutIsUnique(Root(s) + "." + FormatTime(t), Padded(d, 6), Root(s') + "." + FormatTime(t'), Padded(d', 6), '.');
    CutIsUnique(Root(s), FormatTime(t), Root(s'), FormatTime(t'), '.');
    FormatTimeInjective(t, t');
    PaddedInjective(d, d', 6);
    if s != "" && s' != "" {
      assert Root(s)[|LOCAL| + 1..] == s && Root(s')[|LOCAL| + 1..] == s';
    }
  }

  lemma DirectoryNameIsComponent(s: string, t: Timestamp, d: nat)
    requires Lacks(s, '/')
    ensures Lacks(DirectoryName(s, t, d), '/') && Proper(DirectoryName(s, t, d))
  {
    TimeLacks(t, '/');
    assert |Root(s)| > 2;
  }

  lemma LocalWords(a: string, b: string)
    requires a == "must-gather" && b == "local"
    ensures a + ['.'] + b == LOCAL && Lacks(a, '.') && Lacks(b, '.')
  {
  }

  lemma SplitPair(a: string, b: string, whole: string)
    requires Lacks(a, '.') && Lacks(b, '.') && whole == a + ['.'] + b
    ensures Split(whole, '.') == [a, b]
  {
    SplitLacks(a, '.');
    SplitLacks(b, '.');
    SplitAt(a, '.', b);
  }

  lemma RootParts(suffix: string)
    requires Lacks(suffix, '.')
    ensures Split(Root(suffix), '.') == ["must-gather", "local"] + if suffix == "" then [] else [suffix]
  {
    LocalWords("must-gather", "local");
    SplitPair("must-gather", "local", LOCAL);
    SplitOnce(LOCAL, suffix);
  }

  lemma SplitOnce(root: string, suffix: string)
    requires Lacks(suffix, '.')
    ensures Split(root + "." + suffix, '.') == Split(root, '.') + [suffix]
  {
    SplitLacks(suffix, '.');
    SplitAt(root, '.', suffix);
    assert root + ['.'] + suffix == root + "." + suffix;
  }

  lemma SplitTwice(root: string, time: string, draw: string)
    requires Lacks(time, '.') && Lacks(draw, '.')
    ensures Split(root + "." + time + "." + draw, '.') == Split(root, '.') + [time, draw]
  {
    SplitLacks(time, '.');
    SplitLacks(draw, '.');
    SplitAt(root, '.', time);
    SplitAt(root + "." + time, '.', draw);
    assert root + "." + time == root + ['.'] + time;
  }

  /** The name, taken apart at its dots: two fixed words, the cluster's suffix if there is one, the time, the draw. */
  lemma DirectoryNameParts(suffix: string, now: Timestamp, draw: nat)
    requires Lacks(suffix, '.')
    ensures Split(DirectoryName(suffix, now, draw), '.')
            == ["must-gather", "local"] + (if suffix == "" then [] else [suffix]) + [FormatTime(now), Padded(draw, 6)]
  {
    TimeLacks(now, '.');
    RootParts(suffix);
    SplitTwice(Root(suffix), FormatTime(now), Padded(draw, 6));
  }

  /** The time reads year, month, day, T, hour, minute, second, Z, each in its place. */
  lemma FormatTimeReads(t: Timestamp)
    requires Calendar(t) && t.year < 10_000
    ensures var s := FormatTime(t);
            && |s| == 16 && s[8] == 'T' && s[15] == 'Z'
            && Value(s[0..4]) == t.year && Value(s[4..6]) == t.month && Value(s[6..8]) == t.day
            && Value(s[9..11]) == t.hour && Value(s[11..13]) == t.minute && Value(s[13..15]) == t.second
  {
    FourPlaces(t.year);
    TwoPlaces(t.month); TwoPlaces(t.day); TwoPlaces(t.hour); TwoPlaces(t.minute); TwoPlaces(t.second);
    ValueOfPadded(t.year, 4);
    ValueOfPadded(t.month, 2);
    ValueOfPadded(t.day, 2);
    ValueOfPadded(t.hour, 2);
    ValueOfPadded(t.minute, 2);
    ValueOfPadded(t.second, 2);
    TimePieces(Padded(t.year, 4), Padded(t.month, 2), Padded(t.day, 2), Padded(t.hour, 2), Padded(t.minute, 2), Padded(t.second, 2));
  }

  lemma TimePieces(year: string, month: string, day: string, hour: string, minute: string, second: string)
    requires |year| == 4 && |month| == |day| == |hour| == |minute| == |second| == 2
    ensures var s := year + month + day + "T" + hour + minute + second + "Z";
            && |s| == 16 && s[8] == 'T' && s[15] == 'Z'
            && s[0..4] == year && s[4..6] == month && s[6..8] == day && s[9..11] == hour && s[11..13] == minute && s[13..15] == second
  {
  }

  // ---------- the sub-path ----------

  predicate IsSpace(c: char) {
    c in {' ', '\t', '\n', '\U{0B}', '\U{0C}', '\r', '\U{85}', '\U{A0}', '\U{1680}', '\U{2028}', '\U{2029}', '\U{202F}', '\U{205F}', '\U{3000}'}
    || '\U{2000}' <= c <= '\U{200A}'
  }

  predicate IsSlash(c: char) {
    c == '/'
  }

  function TrimmedBase(volume: VolumeConfig): string {
    Trim(Trim(Deref(volume.subPath), IsSpace), IsSlash)
  }

  function OutputSubPath(storage: Option<Storage>, dir: string): Option<string> {
    if storage.None? || storage.value.kind != STORAGE_TYPE_PV then None
    else Some(JoinPath(TrimmedBase(storage.value.volume), dir))
  }

  lemma SliceKeepsOutDotDot(s: string, lo: nat, hi: nat)
    requires lo <= hi <= |s| && !HasDotDot(s)
    ensures !HasDotDot(s[lo..hi])
  {
    var t := s[lo..hi];
    forall i | 0 <= i < |t| - 1 ensures !(t[i] == '.' && t[i + 1] == '.') {
      assert t[i] == s[lo + i] && t[i + 1] == s[lo + i + 1];
    }
  }

  /** The base is the sub-path asked for, cut only at its ends and only of white space and slashes; no slash is left at either end. */
  lemma TrimmedBaseIs(volume: VolumeConfig) returns (lo: nat, hi: nat)
    ensures var asked := if volume.subPath.Some? then volume.subPath.value else "";
            && lo <= hi <= |asked| && TrimmedBase(volume) == asked[lo..hi]
            && (forall i | 0 <= i < |asked| && !(lo <= i < hi) :: IsSpace(asked[i]) || asked[i] == '/')
            && (lo < hi ==> asked[lo] != '/' && asked[hi - 1] != '/')
  {
    lo, hi := TrimmedTwice(Deref(volume.subPath));
  }

  lemma TrimmedTwice(asked: string) returns (lo: nat, hi: nat)
    ensures lo <= hi <= |asked| && Trim(Trim(asked, IsSpace), IsSlash) == asked[lo..hi]
    ensures forall i | 0 <= i < |asked| && !(lo <= i < hi) :: IsSpace(asked[i]) || asked[i] == '/'
    ensures lo < hi ==> asked[lo] != '/' && asked[hi - 1] != '/'
  {
    var a, b := TrimCuts(asked, IsSpace);
    var inner := Trim(asked, IsSpace);
    var m, n := TrimCuts(inner, IsSlash);
    lo, hi := a + m, a + n;
    CutTwice(asked, inner, a, b, m, n);
    assert m < n ==> inner[m] == asked[lo] && inner[n - 1] == asked[hi - 1];
  }

  lemma SliceOfSlice(s: string, a: nat, b: nat, m: nat, n: nat)
    requires a <= b <= |s| && m <= n <= b - a
    ensures s[a..b][m..n] == s[a + m..a + n]
  {
    var t := s[a..b];
    assert |t[m..n]| == |s[a + m..a + n]|;
    forall i | 0 <= i < n - m ensures t[m..n][i] == s[a + m..a + n][i] {
      assert t[m + i] == s[a + m + i];
    }
  }

  lemma CutTwice(s: string, inner: string, a: nat, b: nat, m: nat, n: nat)
    requires a <= b <= |s| && inner == s[a..b] && m <= n <= |inner|
    requires forall i | 0 <= i < |s| && !(a <= i < b) :: IsSpace(s[i])
    requires forall i | 0 <= i < |inner| && !(m <= i < n) :: IsSlash(inner[i])
    ensures inner[m..n] == s[a + m..a + n]
    ensures forall i | 0 <= i < |s| && !(a + m <= i < a + n) :: IsSpace(s[i]) || s[i] == '/'
  {
    SliceOfSlice(s, a, b, m, n);
    forall i | 0 <= i < |s| && !(a + m <= i < a + n) ensures IsSpace(s[i]) || IsSlash(s[i]) {
      if a <= i < b {
        assert inner[i - a] == s[i];
      }
    }
  }

  /** The suffix is the end of the cluster's id, twelve characters of it or all there are. */
  lemma SuffixIsTheEnd(id: string)
    ensures var suffix := ClusterIdSuffix(Some(id));
            |suffix| == (if |id| < 12 then |id| else 12) && suffix == id[|id| - |suffix|..]
  {
  }

  lemma TrimmedBaseIsSafe(volume: VolumeConfig)
    requires AdmittedVolume(volume)
    ensures var b := TrimmedBase(volume);
            (b == "" || b[0] != '/') && ".." !in Split(b, '/')
  {
    var raw := Deref(volume.subPath);
    var lo, hi := TrimIsSlice(raw, IsSpace);
    var t := Trim(raw, IsSpace);
    SliceKeepsOutDotDot(raw, lo, hi);
    lo, hi := TrimIsSlice(t, IsSlash);
    SliceKeepsOutDotDot(t, lo, hi);
    var b := TrimmedBase(volume);
    if b != "" {
      TrimRightKeepsFirst(TrimLeft(t, IsSlash), IsSlash);
    }
    NoDotDotComponent(b);
  }

  lemma NoDotDotComponent(b: string)
    requires !HasDotDot(b)
    ensures ".." !in Split(b, '/')
  {
    assert HasDotDot("..") by {
      assert ".."[0] == '.' && ".."[1] == '.';
    }
    forall c | c in Split(b, '/') ensures c != ".." {
      var i, j := SplitPieces(b, '/', c);
      SliceKeepsOutDotDot(b, i, j);
    }
  }

  lemma SubPathParts(storage: Storage, dir: string)
    requires storage.kind == STORAGE_TYPE_PV && AdmittedVolume(storage.volume)
    requires Proper(dir) && Lacks(dir, '/')
    ensures var path := OutputSubPath(Some(storage), dir);
            && path.Some? && path.value != "" && path.value[0] != '/'
            && Split(path.value, '/') == Kept(Split(TrimmedBase(storage.volume), '/')) + [dir]
    ensures forall c | c in Kept(Split(TrimmedBase(storage.volume), '/')) + [dir] :: Proper(c)
  {
    TrimmedBaseIsSafe(storage.volume);
    var base := TrimmedBase(storage.volume);
    JoinPathParts(base, dir);
  }

  /**
    For every admitted storage and any cluster id without '/', the output path is
    relative, stays below the volume's root and ends in the directory name.
   */
  lemma OutputPathIsContained(storage: Storage, suffix: string, now: Timestamp, draw: nat)
    requires storage.kind == STORAGE_TYPE_PV && AdmittedVolume(storage.volume)
    requires Lacks(suffix, '/')
    ensures var path := OutputSubPath(Some(storage), DirectoryName(suffix, now, draw));
            && path.Some? && path.value != "" && path.value[0] != '/'
            && Split(path.value, '/') == Kept(Split(TrimmedBase(storage.volume), '/')) + [DirectoryName(suffix, now, draw)]
            && forall c | c in Split(path.value, '/') :: Proper(c)
  {
    DirectoryNameIsComponent(suffix, now, draw);
    SubPathParts(storage, DirectoryName(suffix, now, draw));
  }

  /** Two runs of the same storage share a path only if suffix, second and draw coincide. */
  lemma RunsAreIsolated(storage: Storage, s: string, t: Timestamp, d: nat, s': string, t': Timestamp, d': nat)
    requires storage.kind == STORAGE_TYPE_PV && AdmittedVolume(storage.volume)
    requires Lacks(s, '/') && Lacks(s', '/') && Calendar(t) && Calendar(t')
    requires OutputSubPath(Some(storage), DirectoryName(s, t, d)) == OutputSubPath(Some(storage), DirectoryName(s', t', d'))
    ensures s == s' && t == t' && d == d'
  {
    OutputPathIsContained(storage, s, t, d);
    OutputPathIsContained(storage, s', t', d');
    var parts := Split(OutputSubPath(Some(storage), DirectoryName(s, t, d)).value, '/');
    assert parts[|parts| - 1] == DirectoryName(s, t, d) && parts[|parts| - 1] == DirectoryName(s', t', d');
    DirectoryNameInjective(s, t, d, s', t', d');
  }
}

/** The short version and the download URL (setup.py:77-88).

    The build script takes `re.findall('\d+\.\d+\.\d+', VERSION)[0]` as the
    short version. Under Python 2 `\d` on a byte string is one of `0`..`9`.
    At a fixed start the engine's greedy runs are forced: giving a digit back
    from the first or the second run leaves a digit where the next `.` must
    be, so the match at a start is the three maximal digit runs, and the
    third run is taken whole. The first element of `findall` is the match at
    the leftmost start that has one. */
module VersionShort {
  import opened Wrappers

  predicate IsDigit(c: char) {
    '0' <= c <= '9'
  }

  /** Every position in [lo, hi) of `s` holds a digit. */
  ghost predicate DigitsIn(s: string, lo: int, hi: int)
    requires 0 <= lo <= hi <= |s|
  {
    forall x :: lo <= x < hi ==> IsDigit(s[x])
  }

  /** `s[i..l]` reads `d+ . d+ . d+`, with the two dots at `j` and `k`. */
  ghost predicate SplitsAt(s: string, i: int, j: int, k: int, l: int) {
    && 0 <= i < j
    && j + 1 < k
    && k + 1 < l <= |s|
    && s[j] == '.' && s[k] == '.'
    && DigitsIn(s, i, j) && DigitsIn(s, j + 1, k) && DigitsIn(s, k + 1, l)
  }

  /** The regular expression matches the whole of `s[i..l]`. */
  ghost predicate TripleAt(s: string, i: int, l: int) {
    exists j, k :: SplitsAt(s, i, j, k, l)
  }

  /** `t` in its entirety is a dotted triple. */
  ghost predicate IsTriple(t: string) {
    TripleAt(t, 0, |t|)
  }

  /** Somewhere in `s` there is a dotted triple. */
  ghost predicate HasTriple(s: string) {
    exists i, l :: TripleAt(s, i, l)
  }

  /** `s[i..l]` is the first element `re.findall` returns: no triple starts
      before `i`, and no triple starting at `i` is longer. */
  ghost predicate IsFirstMatch(s: string, i: int, l: int) {
    && TripleAt(s, i, l)
    && (forall i', l' :: TripleAt(s, i', l') ==> i < i' || (i == i' && l' <= l))
  }

  /** End of the maximal digit run that starts at `i`. */
  function DigitRunEnd(s: string, i: nat): (j: nat)
    requires i <= |s|
    ensures i <= j <= |s|
    ensures DigitsIn(s, i, j)
    ensures j == |s| || !IsDigit(s[j])
    decreases |s| - i
  {
    if i < |s| && IsDigit(s[i]) then DigitRunEnd(s, i + 1) else i
  }

  /** The greedy match at start `i`: the end of the third digit run, or None
      when the pattern fails at `i`. */
  function MatchAt(s: string, i: nat): (r: Option<nat>)
    requires i <= |s|
    ensures r.Some? ==> i < r.value <= |s| && TripleAt(s, i, r.value)
    ensures r.Some? ==> r.value == |s| || !IsDigit(s[r.value])
  {
    var j := DigitRunEnd(s, i);
    if j == i || j == |s| || s[j] != '.' then None
    else
      var k := DigitRunEnd(s, j + 1);
      if k == j + 1 || k == |s| || s[k] != '.' then None
      else
        var l := DigitRunEnd(s, k + 1);
        if l == k + 1 then None
        else
          assert SplitsAt(s, i, j, k, l);
          Some(l)
  }

  /** Scan the start positions from `from` upwards; the first one with a
      match wins. */
  function FindFrom(s: string, from: nat): (r: Option<(nat, nat)>)
    requires from <= |s|
    ensures r.Some? ==> from <= r.value.0 < r.value.1 <= |s|
    ensures r.Some? ==> TripleAt(s, r.value.0, r.value.1)
    decreases |s| - from
  {
    if from == |s| then None
    else match MatchAt(s, from)
      case Some(l) => Some((from, l))
      case None => FindFrom(s, from + 1)
  }

  /** Start and end of the first triple in `s`, if any. */
  function FindTriple(s: string): (r: Option<(nat, nat)>)
    ensures r.Some? ==> r.value.0 < r.value.1 <= |s| && TripleAt(s, r.value.0, r.value.1)
  {
    FindFrom(s, 0)
  }

  /** `VERSION_SHORT`: bound only when `re.findall` returned something, and
      then a dotted triple cut out of VERSION. */
  function ShortVersion(version: string): (r: Option<string>)
    ensures r.Some? ==> IsTriple(r.value)
    ensures r.Some? ==> exists i, l :: 0 <= i <= l <= |version| && TripleAt(version, i, l) && version[i..l] == r.value
  {
    match FindTriple(version)
    case Some((i, l)) =>
      TripleAtSlice(version, i, l);
      Some(version[i..l])
    case None => None
  }

  /** `DOWNLOAD_BASE` is `DownloadPrefix + '%s' + DownloadSuffix`. */
  const DownloadPrefix: string := "https://github.com/leapcode/bitmask_client/archive/"
  const DownloadSuffix: string := ".tar.gz"

  /** `DOWNLOAD_URL`: `DOWNLOAD_BASE % VERSION_SHORT` when there is a short
      version, and the initial `""` otherwise. So it is set exactly when
      VERSION holds a dotted triple, and then it carries the first one. */
  function DownloadUrl(version: string): (url: string)
    ensures url != "" <==> HasTriple(version)
    ensures HasTriple(version) ==>
      exists i, l :: 0 <= i <= l <= |version| && IsFirstMatch(version, i, l)
                     && url == DownloadPrefix + version[i..l] + DownloadSuffix
  {
    ShortVersionSpec(version);
    match ShortVersion(version)
    case Some(short) => DownloadPrefix + short + DownloadSuffix
    case None => ""
  }

  // ---------------------------------------------------------------------
  // The scanner against the pattern.

  /** A digit run that stops at a non-digit `m` ends exactly there. */
  lemma RunEndAt(s: string, i: nat, m: int)
    requires i <= m < |s| && DigitsIn(s, i, m) && !IsDigit(s[m])
    ensures DigitRunEnd(s, i) == m
  {
  }

  /** A digit run covers every all-digit stretch that starts where it does. */
  lemma RunEndCovers(s: string, i: nat, m: int)
    requires i <= m <= |s| && DigitsIn(s, i, m)
    ensures m <= DigitRunEnd(s, i)
  {
  }

  /** Every triple that starts at `i` is found by the greedy match at `i`,
      and the greedy match is at least as long. */
  lemma MatchAtComplete(s: string, i: nat, l': int)
    requires i <= |s| && TripleAt(s, i, l')
    ensures MatchAt(s, i).Some? && l' <= MatchAt(s, i).value
  {
    var j', k' :| SplitsAt(s, i, j', k', l');
    RunEndAt(s, i, j');
    RunEndAt(s, j' + 1, k');
    RunEndCovers(s, k' + 1, l');
  }

  /** The scan from `from` returns the first match among the starts at or
      after `from`, and None only when no triple starts there. */
  lemma {:induction false} FindFromSpec(s: string, from: nat)
    requires from <= |s|
    ensures FindFrom(s, from).None? ==>
      forall i', l' :: from <= i' && TripleAt(s, i', l') ==> false
    ensures FindFrom(s, from).Some? ==>
      var (i, l) := FindFrom(s, from).value;
      && TripleAt(s, i, l)
      && (forall i', l' :: from <= i' && TripleAt(s, i', l') ==> i < i' || (i == i' && l' <= l))
    decreases |s| - from
  {
    if from == |s| {
      assert forall i', l' :: from <= i' ==> !TripleAt(s, i', l');
    } else {
      match MatchAt(s, from)
      case Some(l) =>
        forall i', l' | from <= i' && TripleAt(s, i', l')
          ensures from < i' || (from == i' && l' <= l)
        {
          if i' == from {
            MatchAtComplete(s, from, l');
          }
        }
      case None =>
        FindFromSpec(s, from + 1);
        forall i', l' | from <= i' && TripleAt(s, i', l')
          ensures from + 1 <= i'
        {
          if i' == from {
            MatchAtComplete(s, from, l');
          }
        }
    }
  }

  /** `FindTriple` returns the first match of the pattern exactly when the
      pattern matches somewhere. */
  lemma FindTripleSpec(s: string)
    ensures FindTriple(s).None? <==> !HasTriple(s)
    ensures FindTriple(s).Some? ==> IsFirstMatch(s, FindTriple(s).value.0, FindTriple(s).value.1)
  {
    FindFromSpec(s, 0);
    if FindTriple(s).Some? {
      var (i, l) := FindTriple(s).value;
      assert TripleAt(s, i, l);
    }
  }

  /** Index form and substring form of a triple agree. */
  lemma TripleAtSlice(s: string, i: int, l: int)
    requires 0 <= i <= l <= |s|
    ensures TripleAt(s, i, l) <==> IsTriple(s[i..l])
  {
    var t := s[i..l];
    if TripleAt(s, i, l) {
      var j, k :| SplitsAt(s, i, j, k, l);
      assert SplitsAt(t, 0, j - i, k - i, |t|);
    }
    if IsTriple(t) {
      var j, k :| SplitsAt(t, 0, j, k, |t|);
      assert SplitsAt(s, i, j + i, k + i, l);
    }
  }

  /** VERSION_SHORT is bound exactly when VERSION holds a dotted triple; it
      is then a dotted triple, and it is the contiguous piece of VERSION that
      `re.findall` puts first. */
  lemma ShortVersionSpec(version: string)
    ensures ShortVersion(version).Some? <==> HasTriple(version)
    ensures ShortVersion(version).Some? ==>
      var short := ShortVersion(version).value;
      && IsTriple(short)
      && exists i, l :: 0 <= i <= l <= |version| && IsFirstMatch(version, i, l) && version[i..l] == short
  {
    FindTripleSpec(version);
    if FindTriple(version).Some? {
      var (i, l) := FindTriple(version).value;
      TripleAtSlice(version, i, l);
    }
  }

  /** A dotted triple is made of digits and dots only. */
  lemma TripleCharacters(t: string)
    requires IsTriple(t)
    ensures forall x :: 0 <= x < |t| ==> IsDigit(t[x]) || t[x] == '.'
  {
    var j, k :| SplitsAt(t, 0, j, k, |t|);
    forall x | 0 <= x < |t| ensures IsDigit(t[x]) || t[x] == '.' {
      if x < j {
      } else if x == j || x == k {
      } else if x < k {
        assert j + 1 <= x;
      } else {
        assert k + 1 <= x;
      }
    }
  }

  /** When there is a short version, it can be read back from the download
      URL verbatim between the fixed prefix and suffix. */
  lemma DownloadUrlSpec(version: string)
    ensures HasTriple(version) ==>
      var url := DownloadUrl(version);
      && |DownloadPrefix| + |DownloadSuffix| <= |url|
      && url[..|DownloadPrefix|] == DownloadPrefix
      && url[|url| - |DownloadSuffix|..] == DownloadSuffix
      && Some(url[|DownloadPrefix|..|url| - |DownloadSuffix|]) == ShortVersion(version)
  {
    ShortVersionSpec(version);
    if HasTriple(version) {
      var short := ShortVersion(version).value;
      var url := DownloadUrl(version);
      assert url == DownloadPrefix + short + DownloadSuffix;
      assert url[..|DownloadPrefix|] == DownloadPrefix;
      assert url[|url| - |DownloadSuffix|..] == DownloadSuffix;
      assert url[|DownloadPrefix|..|url| - |DownloadSuffix|] == short;
    }
  }
}

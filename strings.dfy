/** `sep.join(parts)`, the one string helper the build script calls
    (setup.py:156), and two helpers it never calls: `s.split(c)` and the
    first index of a character. Those two exist only to state round trips:
    `Split` undoes `Join` for the requirements manifest, and `IndexOf` finds
    where the first field of a generated file ends. */
module Strings {
  import opened Wrappers

  /** `sep.join(parts)`: the parts in order, `sep` between neighbours,
      nothing before the first or after the last. */
  function Join(sep: string, parts: seq<string>): string
    decreases |parts|
  {
    if |parts| == 0 then ""
    else if |parts| == 1 then parts[0]
    else parts[0] + sep + Join(sep, parts[1..])
  }

  /** `s.split(c)` for a one-character separator: the maximal runs of
      non-`c` characters, an empty string counting as one empty field. */
  function Split(s: string, c: char): (r: seq<string>)
    ensures |r| >= 1
    decreases |s|
  {
    if |s| == 0 then [""]
    else
      var rest := Split(s[1..], c);
      if s[0] == c then [""] + rest
      else [[s[0]] + rest[0]] + rest[1..]
  }

  /** `s.find(c)`, as an Option: the first position holding `c`. */
  function IndexOf(s: string, c: char): (r: Option<nat>)
    ensures r.Some? ==> r.value < |s| && s[r.value] == c
    ensures r.Some? ==> forall k :: 0 <= k < r.value ==> s[k] != c
    ensures r.None? <==> c !in s
    decreases |s|
  {
    if |s| == 0 then None
    else if s[0] == c then Some(0)
    else match IndexOf(s[1..], c)
      case None => None
      case Some(k) => Some(k + 1)
  }

  /** Splitting a separator-free prefix glued onto `s` glues it onto the
      first field of `s` and leaves the other fields alone. */
  lemma {:induction false} SplitFreePrefix(p: string, s: string, c: char)
    requires c !in p
    ensures Split(p + s, c) == [p + Split(s, c)[0]] + Split(s, c)[1..]
    decreases |p|
  {
    var r := Split(s, c);
    if |p| == 0 {
      assert p + s == s && p + r[0] == r[0];
      assert [r[0]] + r[1..] == r;
    } else {
      assert (p + s)[1..] == p[1..] + s;
      SplitFreePrefix(p[1..], s, c);
      assert [p[0]] + (p[1..] + Split(s, c)[0]) == p + Split(s, c)[0];
    }
  }

  /** Splitting a joined list on its separator gives the list back, provided
      no part contains the separator. */
  lemma {:induction false} SplitJoin(parts: seq<string>, c: char)
    requires |parts| >= 1
    requires forall i :: 0 <= i < |parts| ==> c !in parts[i]
    ensures Split(Join([c], parts), c) == parts
    decreases |parts|
  {
    if |parts| == 1 {
      SplitFreePrefix(parts[0], "", c);
      assert parts[0] + "" == parts[0];
    } else {
      var tail := Join([c], parts[1..]);
      assert Join([c], parts) == parts[0] + ([c] + tail);
      SplitFreePrefix(parts[0], [c] + tail, c);
      assert ([c] + tail)[1..] == tail;
      SplitJoin(parts[1..], c);
      assert Split([c] + tail, c) == [""] + parts[1..];
      assert parts[0] + "" == parts[0];
      assert [parts[0]] + parts[1..] == parts;
    }
  }

  /** The first `c` after a `c`-free prefix is where the prefix ends. */
  lemma {:induction false} IndexOfAfterFreePrefix(p: string, s: string, c: char)
    requires c !in p && |s| > 0 && s[0] == c
    ensures IndexOf(p + s, c) == Some(|p|)
    decreases |p|
  {
    if |p| == 0 {
      assert p + s == s;
    } else {
      assert (p + s)[1..] == p[1..] + s;
      IndexOfAfterFreePrefix(p[1..], s, c);
    }
  }
}

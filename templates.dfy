/** The two generated Python sources (setup.py:115-132, 209-219).

    Each template is a `str.format` template with exactly two fields and no
    other braces, so formatting it is `head + a + mid + b + tail`. In both,
    `mid` starts with the quote that closes the first field's literal; the
    inverse `Unfill` reads the two values back. */
module Templates {
  import opened Wrappers
  import Strings

  datatype Template2 = Template2(head: string, mid: string, tail: string)

  /** `template.format(first=a, second=b)`. */
  function Fill(t: Template2, a: string, b: string): string {
    t.head + (a + (t.mid + (b + t.tail)))
  }

  /** Reads the two field values back out of a formatted text: the first
      value ends at the first occurrence of `mid`'s opening character. */
  function Unfill(t: Template2, content: string): (r: Option<(string, string)>)
    requires |t.mid| > 0
    ensures r.Some? ==> Fill(t, r.value.0, r.value.1) == content
  {
    var h := |t.head|;
    if |content| < h || content[..h] != t.head then None
    else
      match UnfillFields(t, content[h..])
      case None => None
      case Some(ab) =>
        Rejoin(content, h);
        Some(ab)
  }

  /** The two values out of what follows the head. */
  function UnfillFields(t: Template2, rest: string): (r: Option<(string, string)>)
    requires |t.mid| > 0
    ensures r.Some? ==> r.value.0 + (t.mid + (r.value.1 + t.tail)) == rest
  {
    match Strings.IndexOf(rest, t.mid[0])
    case None => None
    case Some(q) =>
      match UnfillSecond(t, rest[q..])
      case None => None
      case Some(b) =>
        Rejoin(rest, q);
        Some((rest[..q], b))
  }

  /** The second value out of what follows the first one. */
  function UnfillSecond(t: Template2, after: string): (r: Option<string>)
    ensures r.Some? ==> t.mid + (r.value + t.tail) == after
  {
    var m, n := |t.mid|, |t.tail|;
    if |after| < m + n || after[..m] != t.mid || after[|after| - n..] != t.tail then None
    else
      var inner := after[m..];
      Rejoin(after, m);
      Rejoin(inner, |inner| - n);
      Some(inner[..|inner| - n])
  }

  /** A text is its two slices around a cut point. */
  lemma Rejoin(s: string, i: nat)
    requires i <= |s|
    ensures s == s[..i] + s[i..]
  {
  }

  /** Cutting a concatenation where its parts meet. */
  lemma CutConcat(x: string, y: string)
    ensures (x + y)[..|x|] == x && (x + y)[|x|..] == y
  {
  }

  /** The second value comes back from the text that follows the first. */
  lemma UnfillSecondFill(t: Template2, b: string)
    ensures UnfillSecond(t, t.mid + (b + t.tail)) == Some(b)
  {
    var inner := b + t.tail;
    var after := t.mid + inner;
    CutConcat(t.mid, inner);
    assert after[|t.mid|..] == inner;
    CutConcat(b, t.tail);
    assert after[|after| - |t.tail|..] == inner[|b|..];
  }

  /** Both values come back from the text that follows the head, when the
      first contains no copy of the middle's first character. */
  lemma UnfillFieldsFill(t: Template2, a: string, b: string)
    requires |t.mid| > 0 && t.mid[0] !in a
    ensures UnfillFields(t, a + (t.mid + (b + t.tail))) == Some((a, b))
  {
    var after := t.mid + (b + t.tail);
    Strings.IndexOfAfterFreePrefix(a, after, t.mid[0]);
    CutConcat(a, after);
    UnfillSecondFill(t, b);
  }

  /** Formatting then reading back gives the two values, as long as the first
      contains no character equal to the one that closes it. */
  lemma UnfillFill(t: Template2, a: string, b: string)
    requires |t.mid| > 0 && t.mid[0] !in a
    ensures Unfill(t, Fill(t, a, b)) == Some((a, b))
  {
    var rest := a + (t.mid + (b + t.tail));
    CutConcat(t.head, rest);
    UnfillFieldsFill(t, a, b);
  }

  /** Distinct inputs give distinct files. */
  lemma FillInjective(t: Template2, a: string, b: string, a': string, b': string)
    requires |t.mid| > 0 && t.mid[0] !in a && t.mid[0] !in a'
    requires Fill(t, a, b) == Fill(t, a', b')
    ensures a == a' && b == b'
  {
    UnfillFill(t, a, b);
    UnfillFill(t, a', b');
  }

  // ---------------------------------------------------------------------
  // freeze_debianver

  /** `template` of `freeze_debianver.run` around `{version}` and
      `{version_full}`. */
  const FreezeTemplate: Template2 := Template2(
    "\n"
    + "# This file was generated by the `freeze_debianver` command in setup.py\n"
    + "# Using 'versioneer.py' (0.7+) from\n"
    + "# revision-control system data, or from the parent directory name of an\n"
    + "# unpacked source archive. Distribution tarballs contain a pre-generated copy\n"
    + "# of this file.\n"
    + "\n"
    + "version_version = '",
    "'\nversion_full = '",
    "'\n")

  /** `templatefun`, appended after formatting (so its `{}` is literal). */
  const TemplateFun: string :=
    "\n"
    + "\n"
    + "def get_versions(default={}, verbose=False):\n"
    + "        return {'version': version_version, 'full': version_full}\n"

  /** The static `_version.py` written by `freeze_debianver`: the filled
      template followed by `templatefun`. Its slots give back the short and
      the full version, as long as the short version cannot close its quote
      early. */
  function FrozenVersionSource(short: string, full: string): (r: string)
    ensures '\'' !in short ==> ParseFrozenVersion(r) == Some((short, full))
  {
    var t := FrozenFileTemplate();
    FillLongerTail(FreezeTemplate, short, full, TemplateFun);
    assert '\'' !in short ==> Unfill(t, Fill(t, short, full)) == Some((short, full)) by {
      if '\'' !in short {
        UnfillFill(t, short, full);
      }
    }
    Fill(FreezeTemplate, short, full) + TemplateFun
  }

  /** Text appended after formatting can as well be part of the tail. */
  lemma FillLongerTail(t: Template2, a: string, b: string, extra: string)
    ensures Fill(Template2(t.head, t.mid, t.tail + extra), a, b) == Fill(t, a, b) + extra
  {
    assert b + (t.tail + extra) == (b + t.tail) + extra;
    assert t.mid + ((b + t.tail) + extra) == (t.mid + (b + t.tail)) + extra;
    assert a + ((t.mid + (b + t.tail)) + extra) == (a + (t.mid + (b + t.tail))) + extra;
  }

  /** The whole frozen file as one two-slot template. */
  function FrozenFileTemplate(): Template2 {
    Template2(FreezeTemplate.head, FreezeTemplate.mid, FreezeTemplate.tail + TemplateFun)
  }

  /** What a frozen `_version.py` holds in its two slots, if it is one: the
      text between the quotes of `version_version` and of `version_full`. */
  function ParseFrozenVersion(content: string): Option<(string, string)> {
    Unfill(FrozenFileTemplate(), content)
  }

  // ---------------------------------------------------------------------
  // hash_binaries

  /** `template` of `cmd_binary_hash.run` around `{openvpn}` and `{bitmask}`. */
  const BinariesTemplate: Template2 := Template2(
    "\n"
    + "# Hashes for binaries used in Bitmask Bundle.\n"
    + "# This file has been automatically generated by `setup.py hash_binaries`\n"
    + "# DO NOT modify it manually.\n"
    + "\n"
    + "OPENVPN_BIN = \"",
    "\"\nBITMASK_ROOT = \"",
    "\"\n")

  /** The `_binaries.py` written by `hash_binaries`. Its slots give back
      the OPENVPN_BIN digest first and the BITMASK_ROOT digest second. */
  function BinariesSource(openvpnHash: string, bitmaskHash: string): (r: string)
    ensures '"' !in openvpnHash ==> ParseBinaries(r) == Some((openvpnHash, bitmaskHash))
  {
    assert '"' !in openvpnHash ==> ParseBinaries(Fill(BinariesTemplate, openvpnHash, bitmaskHash))
                                     == Some((openvpnHash, bitmaskHash)) by {
      if '"' !in openvpnHash {
        UnfillFill(BinariesTemplate, openvpnHash, bitmaskHash);
      }
    }
    Fill(BinariesTemplate, openvpnHash, bitmaskHash)
  }

  /** The two digests a `_binaries.py` holds, in file order. */
  function ParseBinaries(content: string): Option<(string, string)> {
    Unfill(BinariesTemplate, content)
  }
}

/** The label an object key is shown under:
    `k.replace(/_/g, " ").replace(/\b\w/g, c => c.toUpperCase())`.
    `\w` is the ASCII word class `[A-Za-z0-9_]`; `\b\w` matches a word
    character that is not preceded by a word character. */
module KeyLabel {

  predicate IsWordChar(c: char) {
    ('a' <= c <= 'z') || ('A' <= c <= 'Z') || ('0' <= c <= '9') || c == '_'
  }

  predicate IsLower(c: char) {
    'a' <= c <= 'z'
  }

  /** `toUpperCase` on the characters `\w` can match. */
  function ToUpper(c: char): (r: char)
    ensures IsWordChar(c) <==> IsWordChar(r)
    ensures !IsLower(r)
    ensures !IsLower(c) ==> r == c
  {
    if IsLower(c) then (c as int - 32) as char else c
  }

  /** The first replacement: every `_` becomes a space. */
  function Despace(s: string): (r: string)
    ensures |r| == |s|
  {
    seq(|s|, i requires 0 <= i < |s| => if s[i] == '_' then ' ' else s[i])
  }

  /** The second replacement, scanning left to right; `afterWord` says
      whether the character before `s` is a word character. */
  function Capitalize(s: string, afterWord: bool): (r: string)
    ensures |r| == |s|
    decreases |s|
  {
    if s == [] then []
    else
      [if IsWordChar(s[0]) && !afterWord then ToUpper(s[0]) else s[0]]
      + Capitalize(s[1..], IsWordChar(s[0]))
  }

  /** The label shown for key `k`. */
  function FormatKey(k: string): (r: string)
    ensures |r| == |k|
  {
    Capitalize(Despace(k), false)
  }

  /** Whether position `i` of `s` starts a word run (`\b\w`). */
  predicate WordStart(s: string, i: nat)
    requires i < |s|
  {
    IsWordChar(s[i]) && (i == 0 || !IsWordChar(s[i - 1]))
  }

  lemma {:induction false} CapitalizeAt(s: string, afterWord: bool, i: nat)
    requires i < |s|
    ensures |Capitalize(s, afterWord)| == |s|
    ensures Capitalize(s, afterWord)[i] ==
      (if IsWordChar(s[i]) && (if i == 0 then !afterWord else !IsWordChar(s[i - 1]))
       then ToUpper(s[i]) else s[i])
    decreases |s|
  {
    if |s| == 1 {
    } else if i == 0 {
      CapitalizeAt(s[1..], IsWordChar(s[0]), 0);
    } else {
      CapitalizeAt(s[1..], IsWordChar(s[0]), i - 1);
      if i > 1 {
        assert s[1..][i - 2] == s[i - 1];
      }
    }
  }

  /** Character `i` of the label: the key's character with `_` turned into
      a space, upper-cased exactly where a word run starts. */
  lemma FormatKeyAt(k: string, i: nat)
    requires i < |k|
    ensures |FormatKey(k)| == |k|
    ensures FormatKey(k)[i] ==
      (if WordStart(Despace(k), i) then ToUpper(Despace(k)[i]) else Despace(k)[i])
  {
    CapitalizeAt(Despace(k), false, i);
  }

  /** The label has the key's length, contains no `_`, and no word run of it
      starts with a lower-case letter. */
  lemma FormatKeyShape(k: string)
    ensures |FormatKey(k)| == |k|
    ensures forall i :: 0 <= i < |k| ==> FormatKey(k)[i] != '_'
    ensures forall i :: 0 <= i < |k| && WordStart(FormatKey(k), i) ==> !IsLower(FormatKey(k)[i])
  {
    var d, r := Despace(k), FormatKey(k);
    forall i | 0 <= i < |k|
      ensures |r| == |k| && r[i] != '_'
      ensures IsWordChar(r[i]) <==> IsWordChar(d[i])
      ensures WordStart(d, i) ==> !IsLower(r[i])
    {
      FormatKeyAt(k, i);
    }
    forall i | 0 <= i < |k| && WordStart(r, i)
      ensures !IsLower(r[i])
    {
      if i > 0 {
        FormatKeyAt(k, i - 1);
      }
    }
  }

  /** Formatting a label again changes nothing. */
  lemma FormatKeyIdempotent(k: string)
    ensures FormatKey(FormatKey(k)) == FormatKey(k)
  {
    var r := FormatKey(k);
    FormatKeyShape(k);
    var d, dr := Despace(k), Despace(r);
    assert dr == r;
    FormatKeyShape(r);
    forall i | 0 <= i < |k|
      ensures FormatKey(r)[i] == r[i]
    {
      FormatKeyAt(k, i);
      FormatKeyAt(r, i);
      if i > 0 {
        FormatKeyAt(k, i - 1);
      }
    }
  }

  /** Inside a word run nothing is upper-cased. */
  lemma {:induction false} CapitalizeInsideWord(s: string)
    requires forall i :: 0 <= i < |s| ==> IsWordChar(s[i])
    ensures Capitalize(s, true) == s
    decreases |s|
  {
    if s != [] {
      CapitalizeInsideWord(s[1..]);
    }
  }

  /** A key that is one lower-case word gets its first letter upper-cased. */
  lemma FormatOneWord(k: string)
    requires |k| > 0 && IsLower(k[0])
    requires forall i :: 0 <= i < |k| ==> IsWordChar(k[i]) && k[i] != '_'
    ensures FormatKey(k) == [ToUpper(k[0])] + k[1..]
  {
    assert Despace(k) == k;
    CapitalizeInsideWord(k[1..]);
  }
}

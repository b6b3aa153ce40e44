/** Whitespace, trimming, lower-casing and unit keys. */
module Strings {

  /** The whitespace of Python's str.strip. */
  predicate IsSpace(c: char) {
    || '\t' <= c <= '\r' || '\U{1C}' <= c <= ' ' || c == '\U{85}' || c == '\U{A0}' || c == '\U{1680}'
    || '\U{2000}' <= c <= '\U{200A}' || c == '\U{2028}' || c == '\U{2029}' || c == '\U{202F}' || c == '\U{205F}'
    || c == '\U{3000}'
  }

  predicate IsDash(c: char) {
    c == '-'
  }

  function TrimLeft(s: string, p: char -> bool): string {
    if s != [] && p(s[0]) then TrimLeft(s[1..], p) else s
  }

  function TrimRight(s: string, p: char -> bool): string {
    if s != [] && p(s[|s| - 1]) then TrimRight(s[..|s| - 1], p) else s
  }

  function Trim(s: string, p: char -> bool): string {
    TrimRight(TrimLeft(s, p), p)
  }

  function Strip(s: string): string {
    Trim(s, IsSpace)
  }

  predicate Trimmed(s: string, p: char -> bool) {
    s == [] || (!p(s[0]) && !p(s[|s| - 1]))
  }

  predicate Within(s: string, t: string) {
    exists i, j | 0 <= i <= j <= |t| :: s == t[i..j]
  }

  lemma {:induction false} TrimLeftIsSuffix(s: string, p: char -> bool) returns (i: nat)
    ensures i <= |s| && TrimLeft(s, p) == s[i..] && (i < |s| ==> !p(s[i]))
    ensures forall k | 0 <= k < i :: p(s[k])
  {
    if s != [] && p(s[0]) {
      i := TrimLeftIsSuffix(s[1..], p);
      assert forall k | 0 < k <= i :: s[k] == s[1..][k - 1];
      i := i + 1;
    } else {
      i := 0;
    }
  }

  lemma {:induction false} TrimRightIsPrefix(s: string, p: char -> bool) returns (j: nat)
    ensures j <= |s| && TrimRight(s, p) == s[..j] && (j > 0 ==> !p(s[j - 1]))
    ensures forall k | j <= k < |s| :: p(s[k])
  {
    if s != [] && p(s[|s| - 1]) {
      j := TrimRightIsPrefix(s[..|s| - 1], p);
    } else {
      j := |s|;
    }
  }

  /** Trimming gives a trimmed slice. */
  lemma TrimTrims(s: string, p: char -> bool)
    ensures Trimmed(Trim(s, p), p) && Within(Trim(s, p), s)
  {
    var i := TrimLeftIsSuffix(s, p);
    var t := s[i..];
    var j := TrimRightIsPrefix(t, p);
    assert t[..j] == s[i..i + j];
    if j > 0 {
      assert t[..j][0] == s[i];
    }
  }

  lemma TrimmedIsFixed(s: string, p: char -> bool)
    requires Trimmed(s, p)
    ensures Trim(s, p) == s
  {
  }

  lemma SliceIsWithin(part: string, text: string, a: nat, b: nat, i: nat, j: nat)
    requires a <= i <= j <= a + b <= |text| && part == text[i..j]
    ensures Within(part, text[a..][..b])
  {
    var slice := text[a..][..b];
    assert slice[i - a..j - a] == part;
  }

  /** Trimming a text loses none of the trimmed texts within it. */
  lemma TrimKeepsWithin(part: string, text: string, p: char -> bool)
    requires Within(part, text) && part != [] && Trimmed(part, p)
    ensures Within(part, Trim(text, p))
  {
    var i, j :| 0 <= i <= j <= |text| && part == text[i..j];
    assert part[0] == text[i] && part[|part| - 1] == text[j - 1];
    var a := TrimLeftIsSuffix(text, p);
    var b := TrimRightIsPrefix(text[a..], p);
    assert text[a..][j - 1 - a] == text[j - 1];
    SliceIsWithin(part, text, a, b, i, j);
  }

  // ---------------------------------------------------------------- unit keys

  predicate IsKeyChar(c: char) {
    'a' <= c <= 'z' || '0' <= c <= '9'
  }

  /** Lower-casing, as far as it can produce key characters: the letters A to Z, the dotted capital I and the Kelvin
      sign. */
  function Lower(c: char): string {
    if 'A' <= c <= 'Z' then [c - 'A' + 'a']
    else if c == '\U{130}' then ['i', '\U{307}']
    else if c == '\U{212A}' then ['k']
    else [c]
  }

  function LowerAll(s: string): string {
    if s == [] then [] else Lower(s[0]) + LowerAll(s[1..])
  }

  function SkipOthers(s: string): (r: string)
    ensures |r| <= |s|
  {
    if s != [] && !IsKeyChar(s[0]) then SkipOthers(s[1..]) else s
  }

  /** Every run of other characters becomes one dash. */
  function Collapse(s: string): string
    decreases |s|
  {
    if s == [] then []
    else if IsKeyChar(s[0]) then [s[0]] + Collapse(s[1..])
    else ['-'] + Collapse(SkipOthers(s[1..]))
  }

  /** The normal form of a unit key; a text without key characters is replaced by a digest. */
  function UnitKey(digest: string -> string, value: string): string {
    var normalized := Trim(Collapse(LowerAll(Strip(value))), IsDash);
    if normalized != [] then normalized else "unit-" + digest(value)
  }

  /** The digest gives hexadecimal digits. */
  ghost predicate Hexadecimal(digest: string -> string) {
    forall v :: digest(v) != [] && forall c | c in digest(v) :: '0' <= c <= '9' || 'a' <= c <= 'f'
  }

  predicate NoDoubleDash(s: string) {
    forall i, j | 0 <= i < |s| && j == i + 1 && j < |s| :: s[i] != '-' || s[j] != '-'
  }

  predicate KeyText(s: string) {
    (forall c | c in s :: IsKeyChar(c) || c == '-') && NoDoubleDash(s)
  }

  lemma {:induction false} SkipStops(s: string)
    ensures SkipOthers(s) == [] || IsKeyChar(SkipOthers(s)[0])
  {
    if s != [] && !IsKeyChar(s[0]) {
      SkipStops(s[1..]);
    }
  }

  lemma {:induction false} CollapseIsKeyText(s: string)
    ensures KeyText(Collapse(s))
    ensures s != [] && IsKeyChar(s[0]) ==> Collapse(s) != [] && Collapse(s)[0] != '-'
    decreases |s|
  {
    if s != [] {
      if IsKeyChar(s[0]) {
        CollapseIsKeyText(s[1..]);
      } else {
        SkipStops(s[1..]);
        CollapseIsKeyText(SkipOthers(s[1..]));
      }
    }
  }

  lemma {:induction false} KeyTextIsFixed(s: string)
    requires KeyText(s) && Trimmed(s, IsDash)
    ensures Collapse(s) == s
    decreases |s|
  {
    if s != [] {
      assert s[0] in s && IsKeyChar(s[0]);
      CollapseTail(s, 1);
      assert [s[0]] + s[1..] == s;
    }
  }

  /** From any position on, key text that does not end in a dash collapses to itself. */
  lemma {:induction false} CollapseTail(s: string, i: nat)
    requires i <= |s| && KeyText(s) && s != [] && s[|s| - 1] != '-'
    ensures Collapse(s[i..]) == s[i..]
    decreases |s| - i
  {
    if i < |s| {
      assert s[i] in s;
      CollapseTail(s, i + 1);
      assert s[i..] == [s[i]] + s[i + 1..] && s[i..][1..] == s[i + 1..];
      if s[i] == '-' {
        assert s[i + 1] != '-' && s[i + 1] in s;
        assert SkipOthers(s[i + 1..]) == s[i + 1..];
      }
    }
  }

  lemma {:induction false} LowerIsFixed(s: string)
    requires forall c | c in s :: IsKeyChar(c) || c == '-'
    ensures LowerAll(s) == s
  {
    if s != [] {
      assert s[0] in s;
      LowerIsFixed(s[1..]);
      assert [s[0]] + s[1..] == s;
    }
  }

  /** A normal key is not empty, does not begin or end with a dash, and has single dashes only. */
  predicate NormalKey(s: string) {
    s != [] && KeyText(s) && Trimmed(s, IsDash)
  }

  lemma NormalKeyIsFixed(digest: string -> string, s: string)
    requires NormalKey(s)
    ensures UnitKey(digest, s) == s
  {
    assert s[0] in s && s[|s| - 1] in s;
    TrimmedIsFixed(s, IsSpace);
    LowerIsFixed(s);
    KeyTextIsFixed(s);
    TrimmedIsFixed(s, IsDash);
  }

  lemma UnitKeyIsNormal(digest: string -> string, value: string)
    requires Hexadecimal(digest)
    ensures NormalKey(UnitKey(digest, value))
  {
    var text := Collapse(LowerAll(Strip(value)));
    CollapseIsKeyText(LowerAll(Strip(value)));
    TrimTrims(text, IsDash);
    var key := Trim(text, IsDash);
    var i, j :| 0 <= i <= j <= |text| && key == text[i..j];
    assert KeyText(text[i..j]);
    if key == [] {
      var d := digest(value);
      assert d[|d| - 1] in d;
      assert forall c | c in d :: IsKeyChar(c);
      DigestKey(d);
    }
  }

  lemma DigestKey(d: string)
    requires d != [] && forall c | c in d :: IsKeyChar(c)
    ensures NormalKey("unit-" + d)
  {
    var key := "unit-" + d;
    assert forall k | 0 <= k < |d| :: d[k] in d && key[5 + k] == d[k];
  }

  /** Normalizing a key again changes nothing, so exactly the normal keys are their own normal form. */
  lemma UnitKeyIsIdempotent(digest: string -> string, value: string)
    requires Hexadecimal(digest)
    ensures UnitKey(digest, UnitKey(digest, value)) == UnitKey(digest, value)
    ensures UnitKey(digest, value) == value <==> NormalKey(value)
  {
    UnitKeyIsNormal(digest, value);
    NormalKeyIsFixed(digest, UnitKey(digest, value));
    if NormalKey(value) {
      NormalKeyIsFixed(digest, value);
    }
  }

  // ---------------------------------------------------------------- lists without repetition

  /** Appends what is not there yet, in order. */
  function AddNew(list: seq<string>, more: seq<string>): seq<string> {
    if more == [] then list
    else
      var front := AddNew(list, more[..|more| - 1]);
      if more[|more| - 1] in front then front else front + [more[|more| - 1]]
  }

  lemma {:induction false} AddNewHolds(list: seq<string>, more: seq<string>)
    ensures forall x :: x in AddNew(list, more) <==> x in list || x in more
  {
    if more != [] {
      AddNewHolds(list, more[..|more| - 1]);
      assert more == more[..|more| - 1] + [more[|more| - 1]];
    }
  }
}

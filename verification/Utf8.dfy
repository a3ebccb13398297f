/** UTF-8 text (section 4 of RFC 3629) as byte strings, with the lossy reading used for header names. */
module Utf8 {
  import opened Bytes

  /** The first character of a byte string, or the ill-formed bytes that stand in its place. */
  datatype Head = Char(len: nat) | Broken(len: nat)

  predicate Continues(s: seq<byte>, i: nat) {
    i < |s| && 0x80 <= s[i] <= 0xBF
  }

  /** Whether the second byte is one that may follow the lead byte `s[0]`. */
  predicate SecondFits(s: seq<byte>)
    requires |s| > 0
  {
    Continues(s, 1) &&
    (s[0] == 0xE0 ==> s[1] >= 0xA0) && (s[0] == 0xED ==> s[1] <= 0x9F) &&
    (s[0] == 0xF0 ==> s[1] >= 0x90) && (s[0] == 0xF4 ==> s[1] <= 0x8F)
  }

  function First(s: seq<byte>): (h: Head)
    requires |s| > 0
    ensures 1 <= h.len <= |s|
  {
    if s[0] < 0x80 then Char(1)
    else if !(0xC2 <= s[0] <= 0xF4) || !SecondFits(s) then Broken(1)
    else if s[0] <= 0xDF then Char(2)
    else if !Continues(s, 2) then Broken(2)
    else if s[0] <= 0xEF then Char(3)
    else if !Continues(s, 3) then Broken(3)
    else Char(4)
  }

  predicate Valid(s: seq<byte>)
    decreases |s|
  {
    s == [] || (First(s).Char? && Valid(s[First(s).len..]))
  }

  /** A string value: bytes that are valid UTF-8. */
  type Text = s: seq<byte> | Valid(s) witness []

  const REPLACEMENT: seq<byte> := [0xEF, 0xBF, 0xBD]

  /** Every ill-formed stretch replaced by U+FFFD. */
  function Lossy(s: seq<byte>): (t: Text)
    ensures Valid(s) ==> t == s
    decreases |s|
  {
    if s == [] then []
    else
      var h := First(s);
      var c := if h.Char? then s[..h.len] else REPLACEMENT;
      var rest := Lossy(s[h.len..]);
      FirstInFront(c, rest);
      c + rest
  }

  lemma FirstInFront(c: seq<byte>, rest: seq<byte>)
    requires |c| > 0 && First(c) == Char(|c|)
    ensures First(c + rest) == Char(|c|) && (c + rest)[|c|..] == rest
  {
  }

  /** Text cut in front of an ASCII byte is text. */
  lemma {:induction false} ValidBeforeAscii(s: seq<byte>, i: nat)
    requires Valid(s) && i < |s| && s[i] < 0x80
    ensures Valid(s[..i])
    decreases |s|
  {
    var n := First(s).len;
    if i >= n {
      ValidBeforeAscii(s[n..], i - n);
      assert s[..i][n..] == s[n..][..i - n];
      assert s[..i] == s[..n] + s[n..i];
      FirstInFront(s[..n], s[n..i]);
    }
  }
}

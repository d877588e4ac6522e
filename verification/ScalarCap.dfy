/** The UTF-8 safe truncation applied to every scalar a flow record retains.
    A Rust `String` is its octets plus the promise that they are well formed;
    here the octets are the value and well-formedness (section 4 of RFC 3629)
    is a predicate the theorems assume or establish. */
module ScalarCap {
  import Base
  newtype Octet = b: int | 0 <= b < 256

  /** The octets of a string. */
  type Text = seq<Octet>

  const SCALAR_CAP: nat := 4096

  /** `b & 0xC0 == 0x80`: the two top bits are 1 and 0. */
  predicate IsTail(b: Octet) {
    b / 0x40 == 2
  }

  predicate InRange(b: Octet, lo: Octet, hi: Octet) {
    lo <= b <= hi
  }

  /** Octets taken by the well-formed character at the head of `s`, or 0 when no
      production of the UTF-8 grammar matches there. */
  function CharLen(s: Text): (n: nat)
    ensures n <= |s| && n <= 4
    ensures n > 0 ==> !IsTail(s[0]) && forall i :: 0 < i < n ==> IsTail(s[i])
  {
    if |s| >= 1 && s[0] <= 0x7F then 1
    else if |s| >= 2 && InRange(s[0], 0xC2, 0xDF) && IsTail(s[1]) then 2
    else if |s| >= 3 && IsTail(s[2]) &&
            ((s[0] == 0xE0 && InRange(s[1], 0xA0, 0xBF)) ||
             ((InRange(s[0], 0xE1, 0xEC) || InRange(s[0], 0xEE, 0xEF)) && IsTail(s[1])) ||
             (s[0] == 0xED && InRange(s[1], 0x80, 0x9F))) then 3
    else if |s| >= 4 && IsTail(s[2]) && IsTail(s[3]) &&
            ((s[0] == 0xF0 && InRange(s[1], 0x90, 0xBF)) ||
             (InRange(s[0], 0xF1, 0xF3) && IsTail(s[1])) ||
             (s[0] == 0xF4 && InRange(s[1], 0x80, 0x8F))) then 4
    else 0
  }

  /** A concatenation of well-formed characters. */
  predicate ValidUtf8(s: Text) {
    s == [] || (CharLen(s) > 0 && ValidUtf8(s[CharLen(s)..]))
  }

  /** Where the backward scan that starts at `end` stops. */
  function BoundaryAtOrBefore(s: Text, end: nat): (e: nat)
    requires end < |s|
    ensures e <= end
    ensures e > 0 ==> !IsTail(s[e])
    ensures forall i :: e < i <= end ==> IsTail(s[i])
  {
    if end > 0 && IsTail(s[end]) then BoundaryAtOrBefore(s, end - 1) else end
  }

  function CapScalar(text: Text): Text {
    if |text| <= SCALAR_CAP then text else text[..BoundaryAtOrBefore(text, SCALAR_CAP)]
  }

  function CapOption(text: Base.Option<Text>): Base.Option<Text> {
    if text.Some? then Base.Some(CapScalar(text.value)) else Base.None
  }

  /** The loop the program runs, on its byte index. */
  method CapScalarLoop(text: Text) returns (capped: Text)
    ensures capped == CapScalar(text)
  {
    if |text| <= SCALAR_CAP {
      return text;
    }
    var end: nat := SCALAR_CAP;
    while end > 0 && IsTail(text[end])
      invariant end <= SCALAR_CAP
      invariant BoundaryAtOrBefore(text, end) == BoundaryAtOrBefore(text, SCALAR_CAP)
    {
      end := end - 1;
    }
    capped := text[..end];
  }

  lemma CharLenOfPrefix(s: Text, n: nat)
    requires 0 < CharLen(s) <= n <= |s|
    ensures CharLen(s[..n]) == CharLen(s)
  {
  }

  /** Cutting well-formed text before a non-tail octet yields two well-formed halves. */
  lemma {:induction false} CutAtBoundary(s: Text, n: nat)
    requires ValidUtf8(s) && n <= |s|
    requires n < |s| ==> !IsTail(s[n])
    ensures ValidUtf8(s[..n]) && ValidUtf8(s[n..])
    decreases |s|
  {
    if n == 0 {
      assert s[..0] == [] && s[0..] == s;
    } else {
      var c := CharLen(s);
      assert c <= n;
      CutAtBoundary(s[c..], n - c);
      CharLenOfPrefix(s, n);
      assert s[..n][c..] == s[c..][..n - c];
      assert s[n..] == s[c..][n - c..];
    }
  }

  /** The converse: where a well-formed prefix ends, no tail octet follows. */
  lemma {:induction false} ValidPrefixEndsAtBoundary(s: Text, n: nat)
    requires ValidUtf8(s) && n < |s| && ValidUtf8(s[..n])
    ensures !IsTail(s[n])
    decreases |s|
  {
    if n > 0 {
      var c := CharLen(s[..n]);
      assert s[..n][0] == s[0];
      var d := CharLen(s);
      if c != d {
        if d <= n {
          CharLenOfPrefix(s, n);
        }
        assert false;
      }
      assert s[..n][c..] == s[c..][..n - c];
      ValidPrefixEndsAtBoundary(s[c..], n - c);
    }
  }

  /** At most three tail octets follow each other in well-formed text. */
  lemma {:induction false} FourTailsImpossible(s: Text, i: nat)
    requires ValidUtf8(s) && i + 4 <= |s|
    ensures !(IsTail(s[i]) && IsTail(s[i + 1]) && IsTail(s[i + 2]) && IsTail(s[i + 3]))
    decreases |s|
  {
    var c := CharLen(s);
    if i < c {
      if i + 4 > c && c < |s| {
        var rest := s[c..];
        assert rest != [] && !IsTail(rest[0]);
        assert s[c] == rest[0];
        if i == 0 { assert !IsTail(s[0]); }
      }
    } else {
      FourTailsImpossible(s[c..], i - c);
    }
  }

  /** On well-formed text the result is the longest well-formed prefix that fits
      the cap, both halves of the cut are well formed, at most three octets below
      the cap are given up, text within the cap is untouched and capping twice is
      capping once. */
  lemma CapScalarMeaning(text: Text)
    requires ValidUtf8(text)
    ensures var capped := CapScalar(text);
            && |capped| <= SCALAR_CAP
            && capped == text[..|capped|]
            && ValidUtf8(capped) && ValidUtf8(text[|capped|..])
            && (|text| <= SCALAR_CAP ==> capped == text)
            && (|text| > SCALAR_CAP ==> |capped| >= SCALAR_CAP - 3)
            && CapScalar(capped) == capped
            && (forall n :: |capped| < n <= SCALAR_CAP && n <= |text| ==> !ValidUtf8(text[..n]))
  {
    var capped := CapScalar(text);
    assert text[..|text|] == text && text[|text|..] == [];
    if |text| > SCALAR_CAP {
      var e := BoundaryAtOrBefore(text, SCALAR_CAP);
      assert !IsTail(text[e]);
      CutAtBoundary(text, e);
      FourTailsImpossible(text, SCALAR_CAP - 3);
      forall n | e < n <= SCALAR_CAP
        ensures !ValidUtf8(text[..n])
      {
        if ValidUtf8(text[..n]) { ValidPrefixEndsAtBoundary(text, n); }
      }
    }
  }
}

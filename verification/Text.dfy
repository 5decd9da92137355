/**
 Text helpers of the workflow domain.  A `string` is a sequence of Unicode scalar values; the places where
 the service counts bytes go through `ByteLength`, the length of the UTF-8 encoding.
 */
module Text {

  function ByteLength(s: string): nat {
    if s == "" then 0 else
    var c := s[0] as int;
    (if c < 0x80 then 1 else if c < 0x800 then 2 else if c < 0x10000 then 3 else 4) + ByteLength(s[1..])
  }

  /** The White_Space code points, which `strings.TrimSpace` removes. */
  predicate IsSpace(c: char) {
    var n := c as int;
    9 <= n <= 13 || n in {0x20, 0x85, 0xA0, 0x1680, 0x2028, 0x2029, 0x202F, 0x205F, 0x3000} || 0x2000 <= n <= 0x200A
  }

  function TrimLeft(s: string): string {
    if s != "" && IsSpace(s[0]) then TrimLeft(s[1..]) else s
  }

  function TrimRight(s: string): string {
    if s != "" && IsSpace(s[|s| - 1]) then TrimRight(s[..|s| - 1]) else s
  }

  function Trim(s: string): string {
    TrimRight(TrimLeft(s))
  }

  predicate IsBlank(s: string) {
    Trim(s) == ""
  }

  /** A blank text stands for the empty JSON object. */
  function ObjectText(s: string): string {
    if IsBlank(s) then "{}" else s
  }

  predicate AllSpace(s: string) {
    forall k | 0 <= k < |s| :: IsSpace(s[k])
  }

  lemma {:induction false} TrimLeftIs(s: string) returns (i: nat)
    ensures i <= |s| && TrimLeft(s) == s[i..] && AllSpace(s[..i]) && (i < |s| ==> !IsSpace(s[i]))
  {
    if s != "" && IsSpace(s[0]) {
      var j := TrimLeftIs(s[1..]);
      i := j + 1;
      assert s[..i] == [s[0]] + s[1..][..j];
    } else {
      i := 0;
    }
  }

  lemma {:induction false} TrimRightIs(s: string) returns (j: nat)
    ensures j <= |s| && TrimRight(s) == s[..j] && AllSpace(s[j..]) && (0 < j ==> !IsSpace(s[j - 1]))
  {
    if s != "" && IsSpace(s[|s| - 1]) {
      j := TrimRightIs(s[..|s| - 1]);
      assert s[j..] == s[..|s| - 1][j..] + [s[|s| - 1]];
    } else {
      j := |s|;
    }
  }

  /** Trimming cuts the white space off both ends, and nothing else. */
  lemma TrimIs(s: string) returns (i: nat, j: nat)
    ensures i <= j <= |s| && Trim(s) == s[i..j] && AllSpace(s[..i]) && AllSpace(s[j..])
    ensures i < j ==> !IsSpace(s[i]) && !IsSpace(s[j - 1])
  {
    i := TrimLeftIs(s);
    var k := TrimRightIs(s[i..]);
    j := i + k;
    assert s[i..][k..] == s[j..] && s[i..][..k] == s[i..j];
  }

  /** A text is blank exactly when it is white space throughout. */
  lemma BlankIs(s: string)
    ensures IsBlank(s) <==> AllSpace(s)
  {
    var i, j := TrimIs(s);
    if i == j {
      assert s == s[..i] + s[i..];
    } else {
      assert s[i] in s;
    }
  }

  lemma {:induction false} TrimLeftStops(s: string)
    ensures TrimLeft(s) == "" || !IsSpace(TrimLeft(s)[0])
  {
    if s != "" && IsSpace(s[0]) {
      TrimLeftStops(s[1..]);
    }
  }

  lemma {:induction false} TrimRightStops(s: string)
    ensures TrimRight(s) <= s
    ensures TrimRight(s) == "" || !IsSpace(TrimRight(s)[|TrimRight(s)| - 1])
  {
    if s != "" && IsSpace(s[|s| - 1]) {
      TrimRightStops(s[..|s| - 1]);
    }
  }

  /** Trimming twice is trimming once: a trimmed name that is stored and validated again stays acceptable. */
  lemma TrimIdempotent(s: string)
    ensures Trim(Trim(s)) == Trim(s)
  {
    var left := TrimLeft(s);
    TrimLeftStops(s);
    TrimRightStops(left);
    var t := TrimRight(left);
    if t != "" {
      assert t[0] == left[0];
    }
  }

  predicate IsLower(c: char) { 'a' <= c <= 'z' }

  predicate IsDigit(c: char) { '0' <= c <= '9' }

  predicate IsLetter(c: char) { IsLower(c) || 'A' <= c <= 'Z' }

  /** `^[a-z][a-z0-9_.-]{0,127}$` */
  predicate IsIdentifier(s: string) {
    && 1 <= |s| <= 128
    && IsLower(s[0])
    && forall i | 1 <= i < |s| :: IsLower(s[i]) || IsDigit(s[i]) || s[i] in "_.-"
  }

  /** `[A-Za-z][A-Za-z0-9_]*`, with dots allowed after the first letter when `dots` holds. */
  predicate IsMethodPart(s: string, dots: bool) {
    && s != ""
    && IsLetter(s[0])
    && forall i | 1 <= i < |s| :: IsLetter(s[i]) || IsDigit(s[i]) || s[i] == '_' || (dots && s[i] == '.')
  }

  /** A slash, a dotted service name, a slash and a method name. */
  predicate IsFullMethod(s: string) {
    s != "" && s[0] == '/' &&
    exists j :: 1 <= j < |s| && s[j] == '/' && IsMethodPart(s[1..j], true) && IsMethodPart(s[j + 1..], false)
  }
}

/**
  UUIDs as the request handlers see them: `str(uuid)` produces the canonical
  lower-case 8-4-4-4-12 spelling, and `uuid.UUID(text)` parses a client's string,
  raising ValueError when it is malformed.
*/
module Uuids {
  import opened Wrappers
  import opened Sequences

  type Nibble = x: int | 0 <= x < 16

  /** A 128-bit identifier, as its 32 hexadecimal digits, most significant first. */
  type Uuid = s: seq<Nibble> | |s| == 32 witness seq(32, _ => 0)

  /** The lower-case digit `str(u)` writes for `n`. */
  function HexChar(n: Nibble): (c: char)
    ensures '0' <= c <= '9' || 'a' <= c <= 'f'
  {
    if n < 10 then ('0' as int + n) as char else ('a' as int + n - 10) as char
  }

  /** The value of one hexadecimal digit, upper or lower case. */
  function HexValue(c: char): (r: Option<Nibble>)
    ensures r.Some? && !('A' <= c <= 'F') ==> HexChar(r.value) == c
    ensures r.None? ==> forall n: Nibble :: HexChar(n) != c
  {
    if '0' <= c <= '9' then Some((c - '0') as int)
    else if 'a' <= c <= 'f' then Some((c - 'a') as int + 10)
    else if 'A' <= c <= 'F' then Some((c - 'A') as int + 10)
    else None
  }

  function Hex(ns: seq<Nibble>): (s: string)
    ensures |s| == |ns|
    ensures forall i :: 0 <= i < |ns| ==> s[i] == HexChar(ns[i])
  {
    if ns == [] then [] else [HexChar(ns[0])] + Hex(ns[1..])
  }

  /** `str(u)`: five groups of 8, 4, 4, 4 and 12 lower-case digits joined by '-'. */
  function Format(u: Uuid): (s: string)
    ensures |s| == 36
  {
    Hex(u[..8]) + "-" + Hex(u[8..12]) + "-" + Hex(u[12..16]) + "-" + Hex(u[16..20]) + "-" + Hex(u[20..])
  }

  /** Python's `s.replace(pat, '')`: left-to-right, non-overlapping removal. */
  function RemoveAll(s: string, pat: string): (r: string)
    requires pat != []
    ensures |r| <= |s|
    decreases |s|
  {
    if |s| < |pat| then s
    else if s[..|pat|] == pat then RemoveAll(s[|pat|..], pat)
    else [s[0]] + RemoveAll(s[1..], pat)
  }

  /** `s.replace('-', '')`. */
  function DropHyphens(s: string): (r: string)
    ensures '-' !in r
    ensures |r| <= |s|
  {
    if s == [] then []
    else if s[0] == '-' then DropHyphens(s[1..])
    else [s[0]] + DropHyphens(s[1..])
  }

  function HexNibbles(s: string): (r: Option<seq<Nibble>>)
    ensures r.Some? ==> |r.value| == |s|
  {
    if s == [] then Some([])
    else match (HexValue(s[0]), HexNibbles(s[1..]))
      case (Some(n), Some(rest)) => Some([n] + rest)
      case _ => None
  }

  /**
    `uuid.UUID(s)`: drop every "urn:" and then every "uuid:", strip surrounding
    braces, drop hyphens; what is left must be exactly 32 hexadecimal digits.
  */
  function Parse(s: string): (r: Option<Uuid>)
  {
    var h := DropHyphens(Strip(RemoveAll(RemoveAll(s, "urn:"), "uuid:"), {'{', '}'}));
    if |h| != 32 then None
    else match HexNibbles(h)
      case Some(ns) => Some(ns)
      case None => None
  }

  // ---- the round trip: every id the service hands out parses back to itself ----

  lemma HexValueChar(n: Nibble)
    ensures HexValue(HexChar(n)) == Some(n)
  {
  }

  predicate FormatChar(c: char)
  {
    c == '-' || '0' <= c <= '9' || 'a' <= c <= 'f'
  }

  lemma {:induction false} RemoveAllAbsent(s: string, pat: string)
    requires pat != []
    requires forall i :: 0 <= i < |s| ==> s[i] != pat[0]
    ensures RemoveAll(s, pat) == s
    decreases |s|
  {
    if |s| >= |pat| {
      assert s[..|pat|][0] == s[0];
      RemoveAllAbsent(s[1..], pat);
    }
  }

  lemma {:induction false} DropHyphensAppend(a: string, b: string)
    ensures DropHyphens(a + b) == DropHyphens(a) + DropHyphens(b)
  {
    if a != [] {
      assert (a + b)[1..] == a[1..] + b;
      DropHyphensAppend(a[1..], b);
    } else {
      assert a + b == b;
    }
  }

  lemma {:induction false} DropHyphensHex(ns: seq<Nibble>)
    ensures DropHyphens(Hex(ns)) == Hex(ns)
  {
    if ns != [] {
      assert Hex(ns)[1..] == Hex(ns[1..]);
      DropHyphensHex(ns[1..]);
    }
  }

  lemma {:induction false} HexNibblesHex(ns: seq<Nibble>)
    ensures HexNibbles(Hex(ns)) == Some(ns)
  {
    if ns != [] {
      var s := Hex(ns);
      assert s[1..] == Hex(ns[1..]);
      HexNibblesHex(ns[1..]);
      HexValueChar(ns[0]);
      assert [ns[0]] + ns[1..] == ns;
    }
  }

  lemma FormatChars(u: Uuid)
    ensures forall i :: 0 <= i < |Format(u)| ==> FormatChar(Format(u)[i])
  {
    var s := Format(u);
    forall i | 0 <= i < |s| ensures FormatChar(s[i]) {
      if i < 8 { assert s[i] == Hex(u[..8])[i]; }
      else if i == 8 || i == 13 || i == 18 || i == 23 { }
      else if i < 13 { assert s[i] == Hex(u[8..12])[i - 9]; }
      else if i < 18 { assert s[i] == Hex(u[12..16])[i - 14]; }
      else if i < 23 { assert s[i] == Hex(u[16..20])[i - 19]; }
      else { assert s[i] == Hex(u[20..])[i - 24]; }
    }
  }

  lemma {:induction false} DropHyphensJoin(a: string, b: string)
    ensures DropHyphens(a + "-" + b) == DropHyphens(a) + DropHyphens(b)
  {
    DropHyphensAppend(a + "-", b);
    DropHyphensAppend(a, "-");
    assert DropHyphens("-") == [];
  }

  /** Dropping the four hyphens of `str(u)` leaves its five groups side by side. */
  lemma DropHyphensGroups(u: Uuid)
    ensures DropHyphens(Format(u)) == Hex(u[..8]) + Hex(u[8..12]) + Hex(u[12..16]) + Hex(u[16..20]) + Hex(u[20..])
  {
    var a, b, c, d, e := Hex(u[..8]), Hex(u[8..12]), Hex(u[12..16]), Hex(u[16..20]), Hex(u[20..]);
    DropHyphensHex(u[..8]);
    DropHyphensHex(u[8..12]);
    DropHyphensHex(u[12..16]);
    DropHyphensHex(u[16..20]);
    DropHyphensHex(u[20..]);
    var p1 := a + "-" + b;
    var p2 := p1 + "-" + c;
    var p3 := p2 + "-" + d;
    DropHyphensJoin(a, b);
    DropHyphensJoin(p1, c);
    DropHyphensJoin(p2, d);
    DropHyphensJoin(p3, e);
  }

  /** The five groups side by side spell the 32 digits of `u`. */
  lemma HexGroups(u: Uuid)
    ensures Hex(u[..8]) + Hex(u[8..12]) + Hex(u[12..16]) + Hex(u[16..20]) + Hex(u[20..]) == Hex(u)
  {
    HexAppend(u[..8], u[8..12]);
    assert u[..8] + u[8..12] == u[..12];
    HexAppend(u[..12], u[12..16]);
    assert u[..12] + u[12..16] == u[..16];
    HexAppend(u[..16], u[16..20]);
    assert u[..16] + u[16..20] == u[..20];
    HexAppend(u[..20], u[20..]);
    assert u[..20] + u[20..] == u;
  }

  lemma DropHyphensFormat(u: Uuid)
    ensures DropHyphens(Format(u)) == Hex(u)
  {
    DropHyphensGroups(u);
    HexGroups(u);
  }

  lemma HexAppend(a: seq<Nibble>, b: seq<Nibble>)
    ensures Hex(a + b) == Hex(a) + Hex(b)
  {
  }

  /** The string `str(u)` is accepted by `uuid.UUID` and denotes `u` again. */
  lemma ParseFormat(u: Uuid)
    ensures Parse(Format(u)) == Some(u)
  {
    var s := Format(u);
    FormatChars(u);
    RemoveAllAbsent(s, "urn:");
    RemoveAllAbsent(s, "uuid:");
    StripNone(s, {'{', '}'});
    DropHyphensFormat(u);
    HexNibblesHex(u);
  }
}

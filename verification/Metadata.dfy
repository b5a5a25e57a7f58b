/**
 * The metadata of src/mechanism.cpp: a list of properties, each a name with a length of
 * one byte and a value with a length of four bytes.  Writing, reading back, and exactly
 * which bytes the reader accepts.
 */
module Metadata {
  import opened Common
  import opened Wire

  datatype Property = Property(name: seq<byte>, value: seq<byte>)

  const VALUE_LEN_SIZE := 4
  const MAX_VALUE_LEN := 0x7FFF_FFFF

  /** What add_property can write. */
  predicate Writable(p: Property) {
    |p.name| <= UCHAR_MAX && |p.value| <= MAX_VALUE_LEN
  }

  /** What the lengths on the wire can express. */
  predicate Expressible(p: Property) {
    |p.name| <= UCHAR_MAX && |p.value| < 0x1_0000_0000
  }

  function PropertyLen(nameLen: nat, valueLen: nat): nat {
    1 + nameLen + VALUE_LEN_SIZE + valueLen
  }

  function Written(p: Property): (s: seq<byte>)
    requires Expressible(p)
    ensures |s| == PropertyLen(|p.name|, |p.value|)
  {
    [|p.name|] + p.name + PutUint(|p.value|, VALUE_LEN_SIZE) + p.value
  }

  ghost predicate AllExpressible(ps: seq<Property>) {
    forall p :: p in ps ==> Expressible(p)
  }

  ghost function WrittenAll(ps: seq<Property>): seq<byte>
    requires AllExpressible(ps)
  {
    if ps == [] then [] else Written(ps[0]) + WrittenAll(ps[1..])
  }

  /** The bytes of a property: a length and the name, then a length in network byte order and the value. */
  lemma WrittenBytes(p: Property)
    requires Expressible(p)
    ensures var s, n := Written(p), |p.name|;
            && |s| == 5 + n + |p.value| && s[0] == n && s[1..1 + n] == p.name && s[5 + n..] == p.value
            && Network(0, 0, Digit(s[1 + n], s[2 + n]), Digit(s[3 + n], s[4 + n])) == |p.value|
  {
    var size := PutUint(|p.value|, VALUE_LEN_SIZE);
    FourBytes(|p.value|, size);
    Laid([|p.name|], p.name, size, p.value, Written(p));
  }

  lemma FourBytes(n: nat, s: seq<byte>)
    requires n < 0x1_0000_0000 && s == PutUint(n, 4)
    ensures Network(0, 0, Digit(s[0], s[1]), Digit(s[2], s[3])) == n
  {
    var n1 := n / 0x1_0000;
    LastTwo(n, 4, s);
    LastTwo(n1, 2, s[..2]);
    TwoDigits(n, n1);
  }

  lemma TwoDigits(n: nat, n1: nat)
    requires n < 0x1_0000_0000 && n1 == n / 0x1_0000
    ensures Network(0, 0, n1 % 0x1_0000, n % 0x1_0000) == n
  {
  }

  lemma Laid(a: seq<byte>, b: seq<byte>, c: seq<byte>, d: seq<byte>, s: seq<byte>)
    requires |a| == 1 && |c| == 4 && s == a + b + c + d
    ensures var n := |b|;
            && |s| == 5 + n + |d| && s[0] == a[0] && s[1..1 + n] == b && s[5 + n..] == d
            && s[1 + n] == c[0] && s[2 + n] == c[1] && s[3 + n] == c[2] && s[4 + n] == c[3]
  {
  }

  // ----- Reading, as a function of the bytes ------------------------------------------------------------

  datatype Parsed = Parsed(props: seq<Property>, ok: bool)

  /** One property from the front, if it is complete. */
  function Front(s: seq<byte>): (r: Option<Property>)
    ensures r.Some? ==> Expressible(r.value) && PropertyLen(|r.value.name|, |r.value.value|) <= |s|
  {
    if |s| <= 1 || |s| - 1 < s[0] || |s| - 1 - s[0] < VALUE_LEN_SIZE then None
    else
      var n := s[0];
      var v := GetUint(s[1 + n..5 + n]);
      GetUintBound(s[1 + n..5 + n]);
      assert Pow256(4) == 0x1_0000_0000;
      if |s| - 5 - n < v then None else Some(Property(s[1..1 + n], s[5 + n..5 + n + v]))
  }

  /** Reading stops where no complete property follows; the rest is fine if a length check ended it at the very end. */
  function Parse(s: seq<byte>): Parsed
    decreases |s|
  {
    match Front(s)
    case Some(p) =>
      var r := Parse(s[PropertyLen(|p.name|, |p.value|)..]);
      r.(props := [p] + r.props)
    case None => Parsed([], Tolerated(s))
  }

  /** Nothing, or a property that is cut right after its name, or right after the length of its value. */
  predicate Tolerated(s: seq<byte>) {
    || s == []
    || (|s| > 1 && |s| - 1 == s[0])
    || (|s| > 1 && |s| - 5 == s[0] && GetUint(s[|s| - 4..]) > 0)
  }

  lemma {:induction false} GetUintBound(s: seq<byte>)
    ensures GetUint(s) < Pow256(|s|)
  {
    if s != [] { GetUintBound(s[..|s| - 1]); }
  }

  lemma {:induction false} PutGetUint(s: seq<byte>)
    ensures PutUint(GetUint(s), |s|) == s
  {
    if s != [] {
      var init := s[..|s| - 1];
      PutGetUint(init);
      assert GetUint(s) / 256 == GetUint(init) && GetUint(s) % 256 == s[|s| - 1];
      assert s == init + [s[|s| - 1]];
    }
  }

  /** What is written in front is what is read first. */
  lemma FrontWritten(p: Property, t: seq<byte>)
    requires Expressible(p)
    ensures Front(Written(p) + t) == Some(p) && (Written(p) + t)[|Written(p)|..] == t
  {
    var s, n := Written(p) + t, |p.name|;
    assert s[0] == n;
    assert s[1..1 + n] == p.name;
    assert s[1 + n..5 + n] == PutUint(|p.value|, VALUE_LEN_SIZE);
    assert Pow256(4) == 0x1_0000_0000;
    GetPutUint(|p.value|, VALUE_LEN_SIZE);
    assert s[5 + n..5 + n + |p.value|] == p.value;
  }

  /** A property that is read was written in front. */
  lemma FrontIsWritten(s: seq<byte>)
    requires Front(s).Some?
    ensures var p := Front(s).value; s == Written(p) + s[|Written(p)|..]
  {
    var p, n := Front(s).value, s[0];
    PutGetUint(s[1 + n..5 + n]);
    assert s[..5 + n + |p.value|] == [n] + s[1..1 + n] + s[1 + n..5 + n] + s[5 + n..5 + n + |p.value|];
  }

  lemma ParseFront(s: seq<byte>, p: Property, t: seq<byte>)
    requires Expressible(p) && s == Written(p) + t
    ensures Parse(s) == Parsed([p] + Parse(t).props, Parse(t).ok)
  {
    FrontWritten(p, t);
  }

  /** Any list is read back, and reading goes on with what follows it. */
  lemma {:induction false} ParseWritten(s: seq<byte>, ps: seq<Property>, t: seq<byte>)
    requires AllExpressible(ps) && s == WrittenAll(ps) + t
    ensures Parse(s) == Parsed(ps + Parse(t).props, Parse(t).ok)
    decreases |ps|
  {
    if ps == [] {
      assert s == t && ps + Parse(t).props == Parse(t).props;
    } else {
      var u := WrittenAll(ps[1..]) + t;
      ParseWritten(u, ps[1..], t);
      Split(s, ps, t, u);
      ParseMore(s, ps[0], u, ps[1..], Parse(t));
      assert [ps[0]] + ps[1..] == ps;
    }
  }

  lemma Split(s: seq<byte>, ps: seq<Property>, t: seq<byte>, u: seq<byte>)
    requires AllExpressible(ps) && ps != [] && s == WrittenAll(ps) + t && u == WrittenAll(ps[1..]) + t
    ensures s == Written(ps[0]) + u
  {
  }

  lemma ParseMore(s: seq<byte>, p: Property, u: seq<byte>, qs: seq<Property>, r: Parsed)
    requires Expressible(p) && s == Written(p) + u && Parse(u) == Parsed(qs + r.props, r.ok)
    ensures Parse(s) == Parsed([p] + qs + r.props, r.ok)
  {
    ParseFront(s, p, u);
    assert [p] + (qs + r.props) == [p] + qs + r.props;
  }

  /** What reading leaves over. */
  function Rest(s: seq<byte>): seq<byte>
    decreases |s|
  {
    match Front(s)
    case Some(p) => Rest(s[PropertyLen(|p.name|, |p.value|)..])
    case None => s
  }

  lemma {:induction false} ParseIsWritten(s: seq<byte>)
    ensures AllExpressible(Parse(s).props) && s == WrittenAll(Parse(s).props) + Rest(s)
    ensures Front(Rest(s)).None? && (Parse(s).ok <==> Tolerated(Rest(s)))
    decreases |s|
  {
    if Front(s).Some? {
      var p := Front(s).value;
      var t := s[PropertyLen(|p.name|, |p.value|)..];
      FrontIsWritten(s);
      ParseIsWritten(t);
      assert Parse(s).props[1..] == Parse(t).props;
      assert Written(p) + (WrittenAll(Parse(t).props) + Rest(t)) == (Written(p) + WrittenAll(Parse(t).props)) + Rest(t);
    }
  }

  lemma ToleratedHasNoFront(t: seq<byte>)
    requires Tolerated(t)
    ensures Front(t).None?
  {
    if |t| > 1 && |t| - 5 == t[0] { assert t[|t| - 4..] == t[|t| - 4..|t|]; }
  }

  /** Exactly the bytes of a list, followed by a tolerated rest, are accepted, and they give that list. */
  lemma AcceptedExactly(s: seq<byte>, ps: seq<Property>)
    ensures Parse(s) == Parsed(ps, true) <==>
            AllExpressible(ps) && exists t :: s == WrittenAll(ps) + t && Tolerated(t)
  {
    ParseIsWritten(s);
    if AllExpressible(ps) && exists t :: s == WrittenAll(ps) + t && Tolerated(t) {
      var t :| s == WrittenAll(ps) + t && Tolerated(t);
      ParseWritten(s, ps, t);
      ToleratedHasNoFront(t);
      assert ps + [] == ps;
    }
  }

  /** The bytes of a property up to its name, and up to the length of its value. */
  function NamePart(p: Property): seq<byte>
    requires Expressible(p)
  {
    Written(p)[..1 + |p.name|]
  }

  function LengthPart(p: Property): seq<byte>
    requires Expressible(p)
  {
    Written(p)[..5 + |p.name|]
  }

  /** A tolerated rest is nothing, or a property cut before the length of its value or before the value. */
  lemma ToleratedAreCut(t: seq<byte>)
    ensures Tolerated(t) <==>
            || t == []
            || (exists p :: Expressible(p) && p.name != [] && t == NamePart(p))
            || (exists p :: Expressible(p) && p.value != [] && t == LengthPart(p))
  {
    if |t| > 1 && |t| - 1 == t[0] { CutAfterName(t); }
    if |t| > 1 && |t| - 5 == t[0] && GetUint(t[|t| - 4..]) > 0 { CutAfterLength(t); }
    forall p | Expressible(p) && p.value != [] && t == LengthPart(p) ensures GetUint(t[|t| - 4..]) == |p.value| {
      assert t[|t| - 4..] == PutUint(|p.value|, VALUE_LEN_SIZE);
      assert Pow256(4) == 0x1_0000_0000;
      GetPutUint(|p.value|, VALUE_LEN_SIZE);
    }
  }

  lemma CutAfterName(t: seq<byte>)
    requires |t| > 1 && |t| - 1 == t[0]
    ensures exists p :: Expressible(p) && p.name != [] && t == NamePart(p)
  {
    var p := Property(t[1..], []);
    assert NamePart(p) == [t[0]] + t[1..];
    assert t == NamePart(p);
  }

  lemma CutAfterLength(t: seq<byte>)
    requires |t| > 1 && |t| - 5 == t[0] && GetUint(t[|t| - 4..]) > 0
    ensures exists p :: Expressible(p) && p.value != [] && t == LengthPart(p)
  {
    var n, len := t[1..|t| - 4], t[|t| - 4..];
    GetUintBound(len);
    assert Pow256(4) == 0x1_0000_0000;
    var p := Property(n, seq(GetUint(len), i => 0));
    PutGetUint(len);
    assert LengthPart(p) == [t[0]] + n + len;
    assert t == LengthPart(p);
  }

  /** What was written is read back. */
  lemma RoundTrip(ps: seq<Property>)
    requires AllExpressible(ps)
    ensures Parse(WrittenAll(ps)) == Parsed(ps, true)
  {
    assert WrittenAll(ps) + [] == WrittenAll(ps) && ps + [] == ps;
    ParseWritten(WrittenAll(ps), ps, []);
  }
}

/** rtnetlink attributes: the encoder of the guest's address requests and the parser of address dumps. */
module Netlink {

  newtype byte = x: int | 0 <= x < 256

  const IFA_ADDRESS: nat := 1
  const IFA_LOCAL: nat := 2
  const RT_SCOPE_UNIVERSE: byte := 0
  const SIZEOF_IFADDRMSG: nat := 8

  datatype Attr = Attr(kind: nat, value: seq<byte>)

  // (n + 3) &^ 3
  function Align(n: nat): (r: nat)
    ensures n <= r < n + 4 && r % 4 == 0
  {
    (n + 3) / 4 * 4
  }

  // Little-endian 16-bit store; the conversion to uint16 truncates.
  function Put16(n: nat): (r: seq<byte>)
    ensures |r| == 2 && (n < 65536 ==> Get16(r) == n)
  {
    [(n % 256) as byte, (n / 256 % 256) as byte]
  }

  function Get16(s: seq<byte>): nat
    requires |s| >= 2
  {
    s[0] as nat + 256 * s[1] as nat
  }

  function Get32(s: seq<byte>): nat
    requires |s| >= 4
  {
    Get16(s) + 65536 * Get16(s[2..])
  }

  function AsInt32(n: nat): int {
    if n < 0x8000_0000 then n else n - 0x1_0000_0000
  }

  function Zeros(n: nat): (r: seq<byte>)
    ensures |r| == n
  {
    seq(n, _ => 0)
  }

  function Encode(a: Attr): (r: seq<byte>)
    ensures |r| == Align(4 + |a.value|)
  {
    var total := 4 + |a.value|;
    Put16(total) + Put16(a.kind) + a.value + Zeros(Align(total) - total)
  }

  function EncodeAll(attrs: seq<Attr>): seq<byte> {
    if attrs == [] then [] else EncodeAll(attrs[..|attrs| - 1]) + Encode(attrs[|attrs| - 1])
  }

  /** Length and type survive their 16-bit fields. */
  predicate Fits(a: Attr) {
    4 + |a.value| < 65536 && a.kind < 65536
  }

  /** nlAttr: allocate the padded record, fill in header and value, append it to buf. */
  method AppendAttr(buf: seq<byte>, kind: nat, value: seq<byte>) returns (r: seq<byte>)
    ensures r == buf + Encode(Attr(kind, value))
  {
    var total := 4 + |value|;
    var padded := Align(total);
    var a := new byte[padded](_ => 0);
    var length, tag := Put16(total), Put16(kind);
    a[0], a[1] := length[0], length[1];
    a[2], a[3] := tag[0], tag[1];
    var i := 0;
    while i < |value|
      invariant 0 <= i <= |value|
      invariant a[0] == length[0] && a[1] == length[1] && a[2] == tag[0] && a[3] == tag[1]
      invariant forall k :: 0 <= k < i ==> a[4 + k] == value[k]
      invariant forall k :: 4 + i <= k < padded ==> a[k] == 0
    {
      a[4 + i] := value[i];
      i := i + 1;
    }
    forall k | 0 <= k < padded ensures a[k] == Encode(Attr(kind, value))[k] {
      if 4 <= k < total {
        assert a[4 + (k - 4)] == value[k - 4];
      }
    }
    assert a[..] == Encode(Attr(kind, value));
    r := buf + a[..];
  }

  /** Where the walk over attrs stops: at its end or at a malformed length. */
  predicate Stops(attrs: seq<byte>) {
    |attrs| < 4 || Get16(attrs) < 4 || Get16(attrs) > |attrs|
  }

  /** The re-slice past an attribute stays in bounds, all along the walk. */
  predicate Padded(attrs: seq<byte>)
    decreases |attrs|
  {
    Stops(attrs) || (Align(Get16(attrs)) <= |attrs| && Padded(attrs[Align(Get16(attrs))..]))
  }

  /** The attributes the walk sees. */
  function Visit(attrs: seq<byte>): seq<Attr>
    requires Padded(attrs)
    decreases |attrs|
  {
    if Stops(attrs) then []
    else [Attr(Get16(attrs[2..]), attrs[4..Get16(attrs)])] + Visit(attrs[Align(Get16(attrs))..])
  }

  // One attribute's effect on the address found so far; an empty slice is Go's nil.
  function Pick(ip: seq<byte>, a: Attr): seq<byte> {
    if a.kind == IFA_LOCAL || (a.kind == IFA_ADDRESS && ip == []) then a.value else ip
  }

  function PickAll(ip: seq<byte>, attrs: seq<Attr>): seq<byte>
    decreases |attrs|
  {
    if attrs == [] then ip else PickAll(Pick(ip, attrs[0]), attrs[1..])
  }

  /** The value of the first non-empty IFA_ADDRESS, empty if there is none. */
  function FirstAddress(attrs: seq<Attr>): seq<byte> {
    if attrs == [] then []
    else if attrs[0].kind == IFA_ADDRESS && attrs[0].value != [] then attrs[0].value
    else FirstAddress(attrs[1..])
  }

  datatype Parsed = Skipped | OutOfBounds | Entry(ip: seq<byte>, prefix: byte)

  /** parseAddrEntry on an RTM_NEWADDR payload. */
  method ParseAddrEntry(p: seq<byte>, ifindex: int, family: int) returns (r: Parsed)
    ensures var wanted := |p| >= 8 && AsInt32(Get32(p[4..])) == ifindex && p[0] as int == family && p[3] == RT_SCOPE_UNIVERSE;
            if !wanted then r == Skipped
            else if !Padded(p[8..]) then r == OutOfBounds
            else var ip := PickAll([], Visit(p[8..])); r == if ip == [] then Skipped else Entry(ip, p[1])
  {
    if |p| < SIZEOF_IFADDRMSG {
      return Skipped;
    }
    if AsInt32(Get32(p[4..])) != ifindex || p[0] as int != family || p[3] != RT_SCOPE_UNIVERSE {
      return Skipped;
    }
    var attrs := p[SIZEOF_IFADDRMSG..];
    var ip: seq<byte> := [];
    while |attrs| >= 4
      invariant Padded(p[8..]) <==> Padded(attrs)
      invariant Padded(attrs) ==> PickAll([], Visit(p[8..])) == PickAll(ip, Visit(attrs))
      decreases |attrs|
    {
      var alen := Get16(attrs);
      var atype := Get16(attrs[2..]);
      if alen < 4 || alen > |attrs| {
        break;
      }
      var val := attrs[4..alen];
      if Align(alen) > |attrs| {
        return OutOfBounds;
      }
      ghost var was := ip;
      if atype == IFA_LOCAL || (atype == IFA_ADDRESS && ip == []) {
        ip := val;
      }
      VisitStep(attrs, was);
      attrs := attrs[Align(alen)..];
    }
    if ip == [] {
      return Skipped;
    }
    return Entry(ip, p[1]);
  }

  lemma VisitStep(attrs: seq<byte>, ip: seq<byte>)
    requires !Stops(attrs) && Align(Get16(attrs)) <= |attrs|
    ensures Padded(attrs) <==> Padded(attrs[Align(Get16(attrs))..])
    ensures Padded(attrs) ==>
              PickAll(ip, Visit(attrs)) ==
              PickAll(Pick(ip, Attr(Get16(attrs[2..]), attrs[4..Get16(attrs)])), Visit(attrs[Align(Get16(attrs))..]))
  {
    if Padded(attrs) {
      var rest := Visit(attrs[Align(Get16(attrs))..]);
      assert Visit(attrs)[1..] == rest;
    }
  }

  lemma VisitEncoded(a: Attr, rest: seq<byte>)
    requires Fits(a)
    ensures var s := Encode(a) + rest;
            !Stops(s) && Align(Get16(s)) == |Encode(a)| && s[Align(Get16(s))..] == rest &&
            Attr(Get16(s[2..]), s[4..Get16(s)]) == a
  {
    var total := 4 + |a.value|;
    var s := Encode(a) + rest;
    assert Encode(a)[..2] == Put16(total) && Encode(a)[2..4] == Put16(a.kind);
    assert s[0] == Put16(total)[0] && s[1] == Put16(total)[1];
    assert Get16(s) == total;
    assert s[2] == Put16(a.kind)[0] && s[3] == Put16(a.kind)[1];
    assert Get16(s[2..]) == a.kind;
    assert s[4..total] == a.value;
  }

  lemma Associative<T>(a: seq<T>, b: seq<T>, c: seq<T>)
    ensures (a + b) + c == a + (b + c)
  {
  }

  lemma VisitCons(a: Attr, rest: seq<byte>)
    requires Fits(a) && Padded(rest)
    ensures Padded(Encode(a) + rest) && Visit(Encode(a) + rest) == [a] + Visit(rest)
  {
    VisitEncoded(a, rest);
  }

  lemma {:induction false} VisitEncodedAll(attrs: seq<Attr>, rest: seq<byte>)
    requires forall i :: 0 <= i < |attrs| ==> Fits(attrs[i])
    requires Padded(rest)
    ensures Padded(EncodeAll(attrs) + rest) && Visit(EncodeAll(attrs) + rest) == attrs + Visit(rest)
    decreases |attrs|
  {
    if attrs == [] {
      assert EncodeAll(attrs) + rest == rest;
      assert attrs + Visit(rest) == Visit(rest);
    } else {
      var front, last := attrs[..|attrs| - 1], attrs[|attrs| - 1];
      var tail := Encode(last) + rest;
      VisitCons(last, rest);
      VisitEncodedAll(front, tail);
      Associative(EncodeAll(front), Encode(last), rest);
      Associative(front, [last], Visit(rest));
      assert front + [last] == attrs;
    }
  }

  /** Decoding undoes encoding: the walk stays in bounds and sees exactly the encoded list. */
  lemma RoundTrip(attrs: seq<Attr>)
    requires forall i :: 0 <= i < |attrs| ==> Fits(attrs[i])
    ensures Padded(EncodeAll(attrs)) && Visit(EncodeAll(attrs)) == attrs
  {
    VisitEncodedAll(attrs, []);
    assert EncodeAll(attrs) + [] == EncodeAll(attrs);
    assert attrs + Visit([]) == attrs;
  }

  /** A payload whose length is a multiple of four never leads the walk out of bounds. */
  lemma {:induction false} AlignedStaysInBounds(attrs: seq<byte>)
    requires |attrs| % 4 == 0
    ensures Padded(attrs)
    decreases |attrs|
  {
    if !Stops(attrs) {
      AlignedStaysInBounds(attrs[Align(Get16(attrs))..]);
    }
  }

  /** A payload of the given length that leads the walk out of bounds: its last attribute ends where the payload does. */
  ghost function Overrun(n: nat): (attrs: seq<byte>)
    requires n > 4 && n % 4 != 0
    ensures |attrs| == n && !Padded(attrs)
  {
    if n < 8 then
      var attrs := [n as byte, 0] + Zeros(n - 2);
      assert Get16(attrs) == n;
      attrs
    else
      var rest := Overrun(n - 4);
      var attrs := [4, 0, 0, 0] + rest;
      assert Get16(attrs) == 4 && attrs[4..] == rest;
      attrs
  }

  /** The lengths at which every payload keeps the walk in bounds are exactly the multiples of four and those under four. */
  lemma LengthDecides(n: nat)
    ensures (forall attrs: seq<byte> :: |attrs| == n ==> Padded(attrs)) <==> n % 4 == 0 || n < 4
  {
    if n % 4 == 0 {
      forall attrs: seq<byte> | |attrs| == n ensures Padded(attrs) {
        AlignedStaysInBounds(attrs);
      }
    } else if n > 4 {
      assert |Overrun(n)| == n && !Padded(Overrun(n));
    }
  }

  lemma {:induction false} PickAllConcat(ip: seq<byte>, a: seq<Attr>, b: seq<Attr>)
    ensures PickAll(ip, a + b) == PickAll(PickAll(ip, a), b)
    decreases |a|
  {
    if a == [] {
      assert a + b == b;
    } else {
      assert (a + b)[1..] == a[1..] + b;
      PickAllConcat(Pick(ip, a[0]), a[1..], b);
    }
  }

  lemma {:induction false} PickWithoutLocal(ip: seq<byte>, attrs: seq<Attr>)
    requires forall i :: 0 <= i < |attrs| ==> attrs[i].kind != IFA_LOCAL
    ensures PickAll(ip, attrs) == if ip != [] then ip else FirstAddress(attrs)
    decreases |attrs|
  {
    if attrs == [] {
    } else {
      PickWithoutLocal(Pick(ip, attrs[0]), attrs[1..]);
    }
  }

  ghost predicate LastLocal(attrs: seq<Attr>, k: int) {
    0 <= k < |attrs| && attrs[k].kind == IFA_LOCAL && forall i :: k < i < |attrs| ==> attrs[i].kind != IFA_LOCAL
  }

  /** With k the last IFA_LOCAL, its value wins; an empty one hands over to the addresses after it. */
  lemma LastLocalWins(attrs: seq<Attr>, k: nat)
    requires LastLocal(attrs, k)
    ensures PickAll([], attrs) == if attrs[k].value != [] then attrs[k].value else FirstAddress(attrs[k + 1..])
  {
    assert attrs == attrs[..k] + ([attrs[k]] + attrs[k + 1..]);
    PickAllConcat([], attrs[..k], [attrs[k]] + attrs[k + 1..]);
    assert ([attrs[k]] + attrs[k + 1..])[1..] == attrs[k + 1..];
    PickWithoutLocal(attrs[k].value, attrs[k + 1..]);
  }

  /** What the guest encodes is what it parses back: last IFA_LOCAL, else first IFA_ADDRESS. */
  lemma ParsedSelection(attrs: seq<Attr>)
    requires forall i :: 0 <= i < |attrs| ==> Fits(attrs[i]) && attrs[i].value != []
    ensures Padded(EncodeAll(attrs))
    ensures var ip := PickAll([], Visit(EncodeAll(attrs)));
            if exists k :: LastLocal(attrs, k)
            then forall k :: LastLocal(attrs, k) ==> ip == attrs[k].value
            else ip == FirstAddress(attrs)
  {
    RoundTrip(attrs);
    forall k | LastLocal(attrs, k) ensures PickAll([], attrs) == attrs[k].value {
      LastLocalWins(attrs, k);
    }
    if !exists k :: LastLocal(attrs, k) {
      NoLastLocal(attrs);
      PickWithoutLocal([], attrs);
    }
  }

  lemma {:induction false} NoLastLocal(attrs: seq<Attr>)
    requires !exists k :: LastLocal(attrs, k)
    ensures forall i :: 0 <= i < |attrs| ==> attrs[i].kind != IFA_LOCAL
    decreases |attrs|
  {
    if attrs == [] {
    } else {
      var n := |attrs| - 1;
      assert !LastLocal(attrs, n);
      forall k ensures !LastLocal(attrs[..n], k) {
        assert !LastLocal(attrs, k);
      }
      NoLastLocal(attrs[..n]);
    }
  }
}

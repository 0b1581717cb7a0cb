/** Bit arithmetic on natural numbers standing for 64-bit words. */
module Words {

  const MAX_U64: nat := 0xffff_ffff_ffff_ffff

  /** Addition and subtraction of 64-bit words, which wrap around. */
  function Add64(a: nat, b: nat): nat {
    if a + b <= MAX_U64 then a + b else a + b - (MAX_U64 + 1)
  }

  function Sub64(a: nat, b: nat): int {
    if a >= b then a - b else a - b + (MAX_U64 + 1)
  }

  function Pow2(k: nat): (r: nat)
    ensures r > 0
  {
    if k == 0 then 1 else 2 * Pow2(k - 1)
  }

  /** Bitwise or. */
  function Or(a: nat, b: nat): nat {
    if a == 0 && b == 0 then 0 else 2 * Or(a / 2, b / 2) + if a % 2 == 1 || b % 2 == 1 then 1 else 0
  }

  function Shr(n: nat, k: nat): nat {
    if k == 0 then n else Shr(n / 2, k - 1)
  }

  predicate Bit(n: nat, k: nat) {
    Shr(n, k) % 2 == 1
  }

  /** The k lowest bits are zero. */
  predicate Aligned(n: nat, k: nat) {
    k == 0 || (n % 2 == 0 && Aligned(n / 2, k - 1))
  }

  lemma {:induction false} OrAligned(a: nat, b: nat, k: nat)
    ensures Aligned(Or(a, b), k) <==> Aligned(a, k) && Aligned(b, k)
    decreases k
  {
    if k == 0 {
    } else {
      OrAligned(a / 2, b / 2, k - 1);
      if a == 0 && b == 0 {
        assert Or(a, b) / 2 == Or(a / 2, b / 2);
      } else {
        assert Or(a, b) / 2 == Or(a / 2, b / 2) && (Or(a, b) % 2 == 0 <==> a % 2 == 0 && b % 2 == 0);
      }
    }
  }

  lemma MultipleModulo(m: nat, q: int)
    requires m > 0
    ensures (m * q) % m == 0
  {
    var r := (m * q) % m;
    var d := q - (m * q) / m;
    assert r == m * d by {
      assert m * q == m * ((m * q) / m) + r;
      assert m * d == m * q - m * ((m * q) / m);
    }
  }

  lemma HalfModulo(n: nat, m: nat)
    requires m > 0
    ensures n % (2 * m) == 0 <==> n % 2 == 0 && n / 2 % m == 0
  {
    if n % (2 * m) == 0 {
      var q := n / (2 * m);
      assert n == 2 * (m * q);
      MultipleModulo(m, q);
    }
    if n % 2 == 0 && n / 2 % m == 0 {
      var q := n / 2 / m;
      assert n == (2 * m) * q;
      MultipleModulo(2 * m, q);
    }
  }

  lemma {:induction false} AlignedModulo(n: nat, k: nat)
    ensures Aligned(n, k) <==> n % Pow2(k) == 0
    decreases k
  {
    if k == 0 {
    } else {
      AlignedModulo(n / 2, k - 1);
      HalfModulo(n, Pow2(k - 1));
    }
  }

  lemma PageSize()
    ensures Pow2(12) == 4096
  {
    assert Pow2(4) == 16;
    assert Pow2(8) == 256;
  }

  /** A bitwise or of three words is page aligned exactly when each of them is. */
  lemma OrPageAligned(a: nat, b: nat, c: nat)
    ensures Or(Or(a, b), c) % 4096 == 0 <==> a % 4096 == 0 && b % 4096 == 0 && c % 4096 == 0
  {
    PageSize();
    OrAligned(a, b, 12);
    OrAligned(Or(a, b), c, 12);
    AlignedModulo(a, 12);
    AlignedModulo(b, 12);
    AlignedModulo(c, 12);
    AlignedModulo(Or(Or(a, b), c), 12);
  }

  lemma {:induction false} ShrShr(n: nat, i: nat, j: nat)
    ensures Shr(Shr(n, i), j) == Shr(n, i + j)
    decreases i
  {
    if i == 0 {
    } else {
      ShrShr(n / 2, i - 1, j);
    }
  }

  lemma {:induction false} ShrOut(n: nat, k: nat)
    requires n < Pow2(k)
    ensures Shr(n, k) == 0
    decreases k
  {
    if k == 0 {
    } else {
      ShrOut(n / 2, k - 1);
    }
  }

  /** Shifting right by k leaves nothing exactly when no bit from k on is set. */
  lemma {:induction false} ShrZero(n: nat, k: nat, width: nat)
    requires n < Pow2(width) && k <= width
    ensures Shr(n, k) == 0 <==> forall b :: k <= b < width ==> !Bit(n, b)
    decreases width - k
  {
    if k == width {
      ShrOut(n, k);
    } else {
      ShrZero(n, k + 1, width);
      ShrShr(n, k, 1);
      assert Shr(Shr(n, k), 1) == Shr(n, k) / 2;
      if forall b :: k <= b < width ==> !Bit(n, b) {
        assert !Bit(n, k);
      } else if Shr(n, k) == 0 {
        assert !Bit(n, k);
      }
    }
  }
}

/** The dirty-memory description of a VM: KVM slots mapping guest pages into the RAM file. */
module Dirty {
  import opened Words

  const PAGE: nat := 4096

  /** All fields are 64-bit words except slot, a 32-bit one. */
  datatype Region = Region(slot: nat, gpa: nat, size: nat, fileOffset: nat, bitmap: seq<nat>)

  ghost predicate InRange(r: Region) {
    && r.slot <= 0xffff_ffff && r.gpa <= MAX_U64 && r.size <= MAX_U64 && r.fileOffset <= MAX_U64
    && forall i :: 0 <= i < |r.bitmap| ==> r.bitmap[i] <= MAX_U64
  }

  function Pages(r: Region): nat { r.size / PAGE }

  /** Bits beyond the last page are clear. */
  ghost predicate CleanTail(r: Region) {
    forall b :: Pages(r) <= b < 64 * |r.bitmap| ==> !Bit(r.bitmap[b / 64], b % 64)
  }

  /** One region on its own: aligned, inside guest and file space, with one bitmap bit per page. */
  ghost predicate RegionOk(r: Region, memory: nat) {
    && r.size > 0 && r.gpa % PAGE == 0 && r.size % PAGE == 0 && r.fileOffset % PAGE == 0
    && r.gpa + r.size <= MAX_U64 && r.fileOffset + r.size <= memory
    && |r.bitmap| == (Pages(r) + 63) / 64 && CleanTail(r)
  }

  ghost predicate GuestDisjoint(a: Region, b: Region) {
    a.gpa + a.size <= b.gpa || b.gpa + b.size <= a.gpa
  }

  ghost predicate FileDisjoint(a: Region, b: Region) {
    a.fileOffset + a.size <= b.fileOffset || b.fileOffset + b.size <= a.fileOffset
  }

  predicate Covers(r: Region, x: nat) {
    r.fileOffset <= x < r.fileOffset + r.size
  }

  ghost predicate DistinctSlots(rs: seq<Region>) {
    forall i, j :: 0 <= i < j < |rs| ==> rs[i].slot != rs[j].slot
  }

  /** Pairwise statements are over regions with different slots, so they do not depend on the order of the list. */
  ghost predicate GuestApart(rs: seq<Region>) {
    forall a, b :: a in rs && b in rs && a.slot != b.slot ==> GuestDisjoint(a, b)
  }

  ghost predicate FileApart(rs: seq<Region>) {
    forall a, b :: a in rs && b in rs && a.slot != b.slot ==> FileDisjoint(a, b)
  }

  /** Every byte of RAM lies in a region. */
  ghost predicate CoversAll(rs: seq<Region>, memory: nat) {
    forall x: nat :: x < memory ==> Covered(rs, x)
  }

  ghost predicate Covered(rs: seq<Region>, x: nat) {
    exists r :: r in rs && Covers(r, x)
  }

  ghost predicate WellFormed(rs: seq<Region>, memory: nat) {
    && 1 <= |rs| <= 1024 && DistinctSlots(rs) && (forall r :: r in rs ==> RegionOk(r, memory))
    && GuestApart(rs) && FileApart(rs) && CoversAll(rs, memory)
  }

  function Key(r: Region, byGuest: bool): nat {
    if byGuest then r.gpa else r.fileOffset
  }

  ghost predicate Sorted(rs: seq<Region>, byGuest: bool) {
    forall i, j :: 0 <= i < j < |rs| ==> Key(rs[i], byGuest) <= Key(rs[j], byGuest)
  }

  /** sort.Slice by guest address or by file offset; which order ties get does not matter here. */
  function Sort(rs: seq<Region>, byGuest: bool): seq<Region> {
    if rs == [] then [] else Insert(Sort(rs[..|rs| - 1], byGuest), rs[|rs| - 1], byGuest)
  }

  function Insert(rs: seq<Region>, x: Region, byGuest: bool): seq<Region> {
    if rs == [] || Key(rs[|rs| - 1], byGuest) <= Key(x, byGuest) then rs + [x]
    else Insert(rs[..|rs| - 1], x, byGuest) + [rs[|rs| - 1]]
  }

  lemma {:induction false} InsertMembers(rs: seq<Region>, x: Region, byGuest: bool)
    ensures multiset(Insert(rs, x, byGuest)) == multiset(rs) + multiset{x}
    decreases |rs|
  {
    if rs != [] && Key(rs[|rs| - 1], byGuest) > Key(x, byGuest) {
      InsertMembers(rs[..|rs| - 1], x, byGuest);
      assert rs == rs[..|rs| - 1] + [rs[|rs| - 1]];
    }
  }

  lemma {:induction false} InsertSorts(rs: seq<Region>, x: Region, byGuest: bool)
    requires Sorted(rs, byGuest)
    ensures Sorted(Insert(rs, x, byGuest), byGuest)
    decreases |rs|
  {
    if rs != [] && Key(rs[|rs| - 1], byGuest) > Key(x, byGuest) {
      var front, last := rs[..|rs| - 1], rs[|rs| - 1];
      var r := Insert(front, x, byGuest);
      InsertSorts(front, x, byGuest);
      InsertMembers(front, x, byGuest);
      forall i | 0 <= i < |r| ensures Key(r[i], byGuest) <= Key(last, byGuest) {
        InsertedFrom(front, x, r, i);
      }
      SortedSnoc(r, last, byGuest);
    }
  }

  lemma InsertedFrom(front: seq<Region>, x: Region, r: seq<Region>, i: nat)
    requires multiset(r) == multiset(front) + multiset{x} && i < |r|
    ensures r[i] == x || r[i] in front
  {
    assert r[i] in multiset(r);
  }

  lemma SortedSnoc(r: seq<Region>, last: Region, byGuest: bool)
    requires Sorted(r, byGuest) && forall i :: 0 <= i < |r| ==> Key(r[i], byGuest) <= Key(last, byGuest)
    ensures Sorted(r + [last], byGuest)
  {
  }

  lemma {:induction false} SortSorts(rs: seq<Region>, byGuest: bool)
    ensures multiset(Sort(rs, byGuest)) == multiset(rs) && Sorted(Sort(rs, byGuest), byGuest)
    decreases |rs|
  {
    if rs == [] {
    } else {
      SortSorts(rs[..|rs| - 1], byGuest);
      InsertSorts(Sort(rs[..|rs| - 1], byGuest), rs[|rs| - 1], byGuest);
      InsertMembers(Sort(rs[..|rs| - 1], byGuest), rs[|rs| - 1], byGuest);
      assert rs == rs[..|rs| - 1] + [rs[|rs| - 1]];
    }
  }

  /** A permutation has the same members and, if slots are distinct, keeps them distinct. */
  lemma Permuted(rs: seq<Region>, ss: seq<Region>)
    requires multiset(rs) == multiset(ss)
    ensures |rs| == |ss| && forall r :: r in rs <==> r in ss
    ensures DistinctSlots(rs) ==> DistinctSlots(ss)
  {
    assert |multiset(rs)| == |multiset(ss)|;
    forall r ensures r in rs <==> r in ss {
      assert r in rs <==> r in multiset(rs);
      assert r in ss <==> r in multiset(ss);
    }
    if DistinctSlots(rs) {
      forall i, j | 0 <= i < j < |ss| ensures ss[i].slot != ss[j].slot {
        if ss[i] == ss[j] {
          TwiceCounted(ss, i, j);
          OnceCounted(rs, ss[i]);
        }
        assert ss[i] in rs && ss[j] in rs;
      }
    }
  }

  lemma TwiceCounted(ss: seq<Region>, i: nat, j: nat)
    requires i < j < |ss| && ss[i] == ss[j]
    ensures multiset(ss)[ss[i]] >= 2
  {
    assert ss == ss[..i] + [ss[i]] + ss[i + 1..j] + [ss[j]] + ss[j + 1..];
  }

  lemma {:induction false} OnceCounted(rs: seq<Region>, r: Region)
    requires DistinctSlots(rs)
    ensures multiset(rs)[r] <= 1
    decreases |rs|
  {
    if rs == [] {
    } else {
      var front, last := rs[..|rs| - 1], rs[|rs| - 1];
      assert rs == front + [last];
      OnceCounted(front, r);
      if last == r {
        assert r !in front;
        assert r !in multiset(front);
      }
    }
  }

  /** In guest order it is enough to look at neighbours. */
  ghost predicate Clears(rs: seq<Region>, i: nat)
    requires 0 < i < |rs|
  {
    rs[i - 1].gpa + rs[i - 1].size <= rs[i].gpa
  }

  ghost predicate NeighboursApart(rs: seq<Region>) {
    forall i :: 0 < i < |rs| ==> Clears(rs, i)
  }

  lemma {:induction false} NeighboursReach(rs: seq<Region>, i: nat, j: nat)
    requires NeighboursApart(rs) && i < j < |rs|
    ensures rs[i].gpa + rs[i].size <= rs[j].gpa
    decreases j
  {
    assert Clears(rs, j);
    if i < j - 1 {
      NeighboursReach(rs, i, j - 1);
    }
  }

  lemma NeighboursDecide(rs: seq<Region>)
    requires Sorted(rs, true) && DistinctSlots(rs) && forall r :: r in rs ==> r.size > 0
    ensures NeighboursApart(rs) <==> GuestApart(rs)
  {
    if NeighboursApart(rs) {
      forall a, b | a in rs && b in rs && a.slot != b.slot ensures GuestDisjoint(a, b) {
        var i :| 0 <= i < |rs| && rs[i] == a;
        var j :| 0 <= j < |rs| && rs[j] == b;
        if i < j {
          NeighboursReach(rs, i, j);
        } else {
          NeighboursReach(rs, j, i);
        }
      }
    }
    if GuestApart(rs) {
      forall i | 0 < i < |rs| ensures Clears(rs, i) {
        assert GuestDisjoint(rs[i - 1], rs[i]);
        assert Key(rs[i - 1], true) <= Key(rs[i], true);
      }
    }
  }

  /** Where the first n regions in file order end. */
  function EndOf(rs: seq<Region>, n: nat): nat
    requires n <= |rs|
  {
    if n == 0 then 0 else rs[n - 1].fileOffset + rs[n - 1].size
  }

  /** Region i starts where the ones before it end. */
  predicate Joins(rs: seq<Region>, i: nat)
    requires i < |rs|
  {
    rs[i].fileOffset == EndOf(rs, i)
  }

  ghost predicate Chained(rs: seq<Region>, n: nat)
    requires n <= |rs|
  {
    forall i :: 0 <= i < n ==> Joins(rs, i)
  }

  lemma {:induction false} EndsGrow(rs: seq<Region>, n: nat, i: nat, j: nat)
    requires i <= j <= n <= |rs| && Chained(rs, n)
    ensures EndOf(rs, i) <= EndOf(rs, j)
    decreases j
  {
    if i < j {
      EndsGrow(rs, n, i, j - 1);
      assert Joins(rs, j - 1);
    }
  }

  lemma {:induction false} ChainedCovers(rs: seq<Region>, n: nat, x: nat)
    requires n <= |rs| && Chained(rs, n) && x < EndOf(rs, n)
    ensures Covered(rs, x)
    decreases n
  {
    assert Joins(rs, n - 1);
    if x < EndOf(rs, n - 1) {
      ChainedCovers(rs, n - 1, x);
    } else {
      assert rs[n - 1] in rs && Covers(rs[n - 1], x);
    }
  }

  lemma ChainedTiles(rs: seq<Region>, memory: nat)
    requires Chained(rs, |rs|) && EndOf(rs, |rs|) == memory
    ensures FileApart(rs) && CoversAll(rs, memory)
  {
    forall a, b | a in rs && b in rs && a.slot != b.slot ensures FileDisjoint(a, b) {
      var i :| 0 <= i < |rs| && rs[i] == a;
      var j :| 0 <= j < |rs| && rs[j] == b;
      assert Joins(rs, i) && Joins(rs, j);
      if i < j {
        EndsGrow(rs, |rs|, i + 1, j);
      } else {
        EndsGrow(rs, |rs|, j + 1, i);
      }
    }
    forall x: nat | x < memory ensures Covered(rs, x) {
      ChainedCovers(rs, |rs|, x);
    }
  }

  lemma NothingCovers(rs: seq<Region>, n: nat)
    requires n <= |rs| && Chained(rs, n) && forall k :: n <= k < |rs| ==> rs[k].fileOffset > EndOf(rs, n)
    ensures !Covered(rs, EndOf(rs, n))
  {
    forall k | 0 <= k < |rs| ensures !Covers(rs[k], EndOf(rs, n)) {
      if k < n {
        EndsGrow(rs, n, k + 1, n);
      }
    }
  }

  ghost predicate Tiled(rs: seq<Region>, memory: nat) {
    && Sorted(rs, false) && DistinctSlots(rs)
    && (forall r :: r in rs ==> r.size > 0 && r.fileOffset + r.size <= memory)
    && FileApart(rs) && CoversAll(rs, memory)
  }

  lemma NextJoins(rs: seq<Region>, memory: nat, n: nat)
    requires Tiled(rs, memory) && n < |rs| && Chained(rs, n)
    ensures Joins(rs, n)
  {
    assert rs[n] in rs;
    if n > 0 {
      assert FileDisjoint(rs[n - 1], rs[n]);
      assert Key(rs[n - 1], false) <= Key(rs[n], false);
    }
    if rs[n].fileOffset > EndOf(rs, n) {
      forall k | n <= k < |rs| ensures rs[k].fileOffset > EndOf(rs, n) {
        assert k == n || Key(rs[n], false) <= Key(rs[k], false);
      }
      NothingCovers(rs, n);
    }
  }

  /** If RAM is tiled, the regions in file order are chained from zero to its end. */
  lemma {:induction false} TilesChained(rs: seq<Region>, memory: nat, n: nat)
    requires Tiled(rs, memory) && n <= |rs|
    ensures Chained(rs, n)
    ensures n == |rs| > 0 ==> EndOf(rs, n) == memory
    decreases n
  {
    if n == 0 {
    } else {
      TilesChained(rs, memory, n - 1);
      NextJoins(rs, memory, n - 1);
      assert rs[n - 1] in rs;
      if n == |rs| && EndOf(rs, n) < memory {
        NothingCovers(rs, n);
      }
    }
  }

  lemma WordWidth()
    ensures Pow2(64) == MAX_U64 + 1
  {
    assert Pow2(8) == 0x100 && Pow2(12) == 0x1000 && Pow2(16) == 0x1_0000 && Pow2(20) == 0x10_0000;
    assert Pow2(24) == 0x100_0000 && Pow2(28) == 0x1000_0000 && Pow2(32) == 0x1_0000_0000;
    assert Pow2(36) == 0x10_0000_0000 && Pow2(40) == 0x100_0000_0000 && Pow2(44) == 0x1000_0000_0000;
    assert Pow2(48) == 0x1_0000_0000_0000 && Pow2(52) == 0x10_0000_0000_0000 && Pow2(56) == 0x100_0000_0000_0000;
    assert Pow2(60) == 0x1000_0000_0000_0000;
  }

  /** The geometry test of the source in 64-bit arithmetic; it subtracts where adding could wrap. */
  predicate GeometryOk(r: Region, memory: nat) {
    && r.size != 0 && Or(Or(r.gpa, r.size), r.fileOffset) % PAGE == 0
    && !(r.gpa > Sub64(MAX_U64, r.size)) && !(r.fileOffset > memory) && !(r.size > Sub64(memory, r.fileOffset))
    && |r.bitmap| == Add64(r.size / PAGE, 63) / 64
  }

  predicate TailOk(r: Region)
    requires |r.bitmap| == Add64(r.size / PAGE, 63) / 64 && r.size <= MAX_U64
  {
    var rem := r.size / PAGE % 64;
    rem == 0 || Shr(r.bitmap[|r.bitmap| - 1], rem) == 0
  }

  lemma TailDecides(r: Region)
    requires InRange(r) && |r.bitmap| == (Pages(r) + 63) / 64
    ensures TailOk(r) <==> CleanTail(r)
  {
    var rem, n := Pages(r) % 64, |r.bitmap|;
    if rem != 0 {
      var last := r.bitmap[n - 1];
      WordWidth();
      ShrZero(last, rem, 64);
      assert Pages(r) == 64 * (n - 1) + rem;
      if CleanTail(r) {
        forall k | rem <= k < 64 ensures !Bit(last, k) {
          var b := 64 * (n - 1) + k;
          assert b / 64 == n - 1 && b % 64 == k;
          assert !Bit(r.bitmap[b / 64], b % 64);
        }
      }
      if forall k :: rem <= k < 64 ==> !Bit(last, k) {
        forall b | Pages(r) <= b < 64 * n ensures !Bit(r.bitmap[b / 64], b % 64) {
          assert b / 64 == n - 1 && b % 64 == b - 64 * (n - 1);
        }
      }
    } else {
      assert Pages(r) == 64 * n;
    }
  }

  /** The tests of one region never wrap around: they decide the statement over unbounded numbers. */
  lemma RegionDecided(r: Region, memory: nat)
    requires InRange(r)
    ensures GeometryOk(r, memory) && TailOk(r) <==> RegionOk(r, memory)
  {
    OrPageAligned(r.gpa, r.size, r.fileOffset);
    if |r.bitmap| == (Pages(r) + 63) / 64 {
      TailDecides(r);
    }
  }

  method SortedBy(rs: seq<Region>, byGuest: bool) returns (ss: seq<Region>)
    requires DistinctSlots(rs)
    ensures multiset(ss) == multiset(rs) && |ss| == |rs| && (forall r :: r in ss <==> r in rs)
    ensures Sorted(ss, byGuest) && DistinctSlots(ss)
  {
    ss := Sort(rs, byGuest);
    SortSorts(rs, byGuest);
    Permuted(rs, ss);
  }

  lemma SameFileSpace(rs: seq<Region>, ss: seq<Region>)
    requires forall r :: r in ss <==> r in rs
    ensures FileApart(ss) == FileApart(rs) && forall memory :: CoversAll(ss, memory) == CoversAll(rs, memory)
  {
    assert forall x: nat :: Covered(ss, x) == Covered(rs, x);
  }

  class DirtyMemory {
    var version: nat
    var pageShift: nat
    var regions: seq<Region>

    /** validate: accepts exactly the well-formed descriptions, and leaves the regions in file order. */
    method Validate(memory: nat) returns (ok: bool)
      requires forall r :: r in regions ==> InRange(r)
      requires memory <= MAX_U64
      modifies this`regions
      ensures ok <==> version == 1 && pageShift == 12 && WellFormed(old(regions), memory)
      ensures multiset(regions) == multiset(old(regions))
      ensures ok ==> Sorted(regions, false)
    {
      if version != 1 || pageShift != 12 || |regions| == 0 || |regions| > 1024 {
        return false;
      }
      ok := CheckRegions(memory);
      if !ok {
        return false;
      }
      ok := CheckGuest();
      if !ok {
        return false;
      }
      ghost var unsorted := regions;
      regions := SortedBy(regions, false);
      SameFileSpace(unsorted, regions);
      ok := CheckTiling(memory);
    }

    // The sums are 64-bit; that no guest range wraps is what the region checks established.
    method CheckGuest() returns (ok: bool)
      requires regions != [] && DistinctSlots(regions) && forall r :: r in regions ==> r.size > 0 && r.gpa + r.size <= MAX_U64
      ensures ok <==> GuestApart(regions)
    {
      var byGPA := SortedBy(regions, true);
      NeighboursDecide(byGPA);
      for i := 1 to |byGPA|
        invariant forall k :: 0 < k < i ==> Clears(byGPA, k)
      {
        var before := byGPA[i - 1];
        assert before in byGPA;
        if byGPA[i].gpa < Add64(before.gpa, before.size) {
          assert !Clears(byGPA, i);
          return false;
        }
      }
      return true;
    }

    method CheckRegions(memory: nat) returns (ok: bool)
      requires forall r :: r in regions ==> InRange(r)
      ensures ok <==> DistinctSlots(regions) && forall r :: r in regions ==> RegionOk(r, memory)
    {
      var seen: set<nat> := {};
      for i := 0 to |regions|
        invariant forall slot :: slot in seen <==> exists k :: 0 <= k < i && regions[k].slot == slot
        invariant forall a, b :: 0 <= a < b < i ==> regions[a].slot != regions[b].slot
        invariant forall k :: 0 <= k < i ==> RegionOk(regions[k], memory)
      {
        var r := regions[i];
        assert r in regions;
        RegionDecided(r, memory);
        if r.slot in seen || !GeometryOk(r, memory) {
          return false;
        }
        seen := seen + {r.slot};
        if !TailOk(r) {
          return false;
        }
      }
      return true;
    }

    // The running end of the regions, now in file order: a 64-bit sum that stays within the file.
    method CheckTiling(memory: nat) returns (ok: bool)
      requires memory <= MAX_U64 && regions != [] && Sorted(regions, false) && DistinctSlots(regions)
      requires forall r :: r in regions ==> r.size > 0 && r.fileOffset + r.size <= memory
      ensures ok <==> FileApart(regions) && CoversAll(regions, memory)
    {
      if FileApart(regions) && CoversAll(regions, memory) {
        TilesChained(regions, memory, |regions|);
      }
      var end := 0;
      for i := 0 to |regions|
        invariant end == EndOf(regions, i) && Chained(regions, i)
      {
        if regions[i].fileOffset != end {
          assert !Joins(regions, i);
          return false;
        }
        assert regions[i] in regions;
        end := Add64(end, regions[i].size);
      }
      if end != memory {
        return false;
      }
      ChainedTiles(regions, memory);
      return true;
    }
  }

  /** The page of RAM that a region's bitmap bit stands for. */
  function PageOf(r: Region, bit: nat): nat {
    r.fileOffset / PAGE + bit
  }

  /** In a well-formed description every page of RAM has exactly one slot and bit, and that bit exists. */
  lemma PageHasOneBit(rs: seq<Region>, memory: nat, page: nat) returns (r: Region, bit: nat)
    requires WellFormed(rs, memory) && page * PAGE < memory
    ensures r in rs && bit < Pages(r) && PageOf(r, bit) == page && bit / 64 < |r.bitmap|
    ensures forall q, b: nat :: q in rs && b < Pages(q) && PageOf(q, b) == page ==> q == r && b == bit
  {
    assert Covered(rs, page * PAGE);
    r :| r in rs && Covers(r, page * PAGE);
    bit := page - r.fileOffset / PAGE;
    forall q, b: nat | q in rs && b < Pages(q) && PageOf(q, b) == page ensures q == r && b == bit {
      assert q.slot != r.slot ==> FileDisjoint(q, r);
      SameSlot(rs, q, r);
    }
  }

  lemma SameSlot(rs: seq<Region>, a: Region, b: Region)
    requires DistinctSlots(rs) && a in rs && b in rs && a.slot == b.slot
    ensures a == b
  {
    var i :| 0 <= i < |rs| && rs[i] == a;
    var j :| 0 <= j < |rs| && rs[j] == b;
  }
}

/**
 data_structure/container_of.c: recovering an object from the address of one of its members.
 The layout rules are those of sections 6.7.2.1 and 6.2.8 of ISO/IEC 9899:2011 as every compiler
 of the kernel applies them: members in order, each at the least offset that suits its alignment,
 the whole padded to a multiple of its own alignment, which is the largest of its members'.
 Alignments are powers of two and sizes are multiples of the alignment.
 */
module StructLayout {
  import opened Modular

  /** A scalar of `size` bytes aligned to 2^exp, or a struct of members in order. */
  datatype Type = Scalar(size: nat, exp: nat) | Struct(members: seq<Type>)

  function Pow2(e: nat): (p: nat)
    ensures p >= 1
  {
    if e == 0 then 1 else 2 * Pow2(e - 1)
  }

  predicate WellFormed(t: Type)
    decreases t
  {
    match t
    case Scalar(size, exp) => size > 0 && size % Pow2(exp) == 0
    case Struct(ms) => |ms| > 0 && forall m | m in ms :: WellFormed(m)
  }

  /** The alignment of a struct is that of its most aligned member. */
  function AlignExp(t: Type): nat
    decreases t, 0
  {
    match t
    case Scalar(_, exp) => exp
    case Struct(ms) => MaxExp(ms)
  }

  function MaxExp(ms: seq<Type>): (e: nat)
    ensures forall i | 0 <= i < |ms| :: AlignExp(ms[i]) <= e
    decreases ms, 0
  {
    if ms == [] then 0
    else
      var a, b := AlignExp(ms[0]), MaxExp(ms[1..]);
      assert forall i | 1 <= i < |ms| :: ms[i] == ms[1..][i - 1];
      if a > b then a else b
  }

  function Align(t: Type): (a: nat)
    ensures a >= 1
  {
    Pow2(AlignExp(t))
  }

  /** The least multiple of `a` from x on. */
  function AlignUp(x: nat, a: nat): (r: nat)
    requires a >= 1
    ensures x <= r < x + a && r % a == 0
  {
    AlignUpIsMultiple(x, a);
    if x % a == 0 then x else x - x % a + a
  }

  lemma AlignUpIsMultiple(x: nat, a: nat)
    requires a >= 1
    ensures x % a <= x && (x - x % a + a) % a == 0
  {
    var q := x / a;
    assert x == a * q + x % a;
    assert a * q + a == a * (q + 1);
    Multiple(a, q + 1);
  }

  function Size(t: Type): nat
    decreases t, 1
  {
    match t
    case Scalar(size, _) => size
    case Struct(ms) => AlignUp(EndBefore(ms, |ms|), Pow2(MaxExp(ms)))
  }

  /** Where member k - 1 ends, 0 for k = 0. */
  function EndBefore(ms: seq<Type>, k: nat): nat
    requires k <= |ms|
    decreases ms, k, 1
  {
    if k == 0 then 0 else MemberOffset(ms, k - 1) + Size(ms[k - 1])
  }

  function MemberOffset(ms: seq<Type>, k: nat): nat
    requires k < |ms|
    decreases ms, k, 2
  {
    AlignUp(EndBefore(ms, k), Align(ms[k]))
  }

  /** A designator `.a.b.c` as member numbers. */
  type Path = seq<nat>

  predicate ValidPath(t: Type, path: Path)
    decreases |path|
  {
    path == [] || (t.Struct? && path[0] < |t.members| && ValidPath(t.members[path[0]], path[1..]))
  }

  function TypeAt(t: Type, path: Path): Type
    requires ValidPath(t, path)
    decreases |path|
  {
    if path == [] then t else TypeAt(t.members[path[0]], path[1..])
  }

  /** offsetof(t, path) */
  function Offset(t: Type, path: Path): nat
    requires ValidPath(t, path)
    decreases |path|
  {
    if path == [] then 0
    else MemberOffset(t.members, path[0]) + Offset(t.members[path[0]], path[1..])
  }

  // ---------- alignment

  lemma {:induction false} Pow2Divides(e: nat, f: nat)
    requires e <= f
    ensures Pow2(f) % Pow2(e) == 0
  {
    if e == f {
      Multiple(Pow2(e), 1);
    } else {
      Pow2Divides(e, f - 1);
      DividesSum(Pow2(e), Pow2(f - 1), Pow2(f - 1));
    }
  }

  /** Sizes are multiples of the alignment, so that arrays keep it, and never zero. */
  lemma SizeIsAligned(t: Type)
    requires WellFormed(t)
    ensures Size(t) % Align(t) == 0 && Size(t) > 0
    decreases t
  {
    if t.Struct? {
      SizeIsAligned(t.members[|t.members| - 1]);
    }
  }

  lemma MemberIsAligned(t: Type, k: nat)
    requires t.Struct? && k < |t.members|
    ensures MemberOffset(t.members, k) % Align(t.members[k]) == 0
    ensures Align(t) % Align(t.members[k]) == 0
  {
    Pow2Divides(AlignExp(t.members[k]), AlignExp(t));
  }

  /** In an aligned object every member, however deeply nested, is aligned. */
  lemma {:induction false} PathIsAligned(t: Type, path: Path, base: nat)
    requires ValidPath(t, path) && base % Align(t) == 0
    ensures (base + Offset(t, path)) % Align(TypeAt(t, path)) == 0
    decreases |path|
  {
    if path != [] {
      var k, m := path[0], t.members[path[0]];
      MemberIsAligned(t, k);
      DividesTrans(Align(m), Align(t), base);
      DividesSum(Align(m), base, MemberOffset(t.members, k));
      PathIsAligned(m, path[1..], base + MemberOffset(t.members, k));
    }
  }

  // ---------- members do not overlap

  lemma {:induction false} LaterMembersFollow(ms: seq<Type>, i: nat, j: nat)
    requires i < j <= |ms|
    ensures MemberOffset(ms, i) + Size(ms[i]) <= EndBefore(ms, j)
    decreases j
  {
    if i < j - 1 {
      LaterMembersFollow(ms, i, j - 1);
    }
  }

  /** Every member lies inside the object. */
  lemma {:induction false} PathIsInside(t: Type, path: Path)
    requires ValidPath(t, path)
    ensures Offset(t, path) + Size(TypeAt(t, path)) <= Size(t)
    decreases |path|
  {
    if path != [] {
      LaterMembersFollow(t.members, path[0], |t.members|);
      PathIsInside(t.members[path[0]], path[1..]);
    }
  }

  /** Neither designates a part of the other. */
  predicate Apart(p: Path, q: Path) { !(p <= q) && !(q <= p) }

  ghost predicate Disjoint(t: Type, p: Path, q: Path)
    requires ValidPath(t, p) && ValidPath(t, q)
  {
    || Offset(t, p) + Size(TypeAt(t, p)) <= Offset(t, q)
    || Offset(t, q) + Size(TypeAt(t, q)) <= Offset(t, p)
  }

  lemma {:induction false} ApartIsDisjoint(t: Type, p: Path, q: Path)
    requires ValidPath(t, p) && ValidPath(t, q) && Apart(p, q)
    ensures Disjoint(t, p, q)
    decreases |p|
  {
    var i, j := p[0], q[0];
    PathIsInside(t.members[i], p[1..]);
    PathIsInside(t.members[j], q[1..]);
    if i == j {
      assert p == [i] + p[1..] && q == [i] + q[1..];
      ApartIsDisjoint(t.members[i], p[1..], q[1..]);
    } else if i < j {
      LaterMembersFollow(t.members, i, j);
    } else {
      LaterMembersFollow(t.members, j, i);
    }
  }

  // ---------- nesting

  /** The offset of a nested member is the sum of the two offsets. */
  lemma {:induction false} NestedOffset(t: Type, outer: Path, inner: Path)
    requires ValidPath(t, outer) && ValidPath(TypeAt(t, outer), inner)
    ensures ValidPath(t, outer + inner)
    ensures Offset(t, outer + inner) == Offset(t, outer) + Offset(TypeAt(t, outer), inner)
    ensures TypeAt(t, outer + inner) == TypeAt(TypeAt(t, outer), inner)
    decreases |outer|
  {
    if outer == [] {
      assert outer + inner == inner;
    } else {
      assert (outer + inner)[1..] == outer[1..] + inner;
      NestedOffset(t.members[outer[0]], outer[1..], inner);
    }
  }

  // ---------- container_of

  /** Addresses are 64-bit words, and arithmetic on them wraps. */
  type Address = a: nat | a < 0x1_0000_0000_0000_0000

  function Wrap(x: int): Address { x % 0x1_0000_0000_0000_0000 }

  lemma WrapSum(x: int, y: int)
    ensures Wrap(Wrap(x) + y) == Wrap(x + y)
  {
  }

  lemma MoveBack(a: Address, d: int)
    ensures Wrap(Wrap(a + d) - d) == a
  {
    WrapSum(a + d, 0 - d);
  }

  function Forth(a: Address, d: nat): Address { Wrap(a + d) }

  function Back(a: Address, d: nat): Address { Wrap(a - d) }

  lemma ForthAndBack(a: Address, d: nat)
    ensures Back(Forth(a, d), d) == a && Forth(Back(a, d), d) == a
  {
    MoveBack(a, d);
    MoveBack(a, 0 - d);
  }

  /** Moving an address by less than the whole address space moves it unless by nothing. */
  lemma WrapMoves(a: Address, d: int)
    requires -0x1_0000_0000_0000_0000 < d < 0x1_0000_0000_0000_0000
    ensures Wrap(a + d) == a <==> d == 0
  {
  }

  lemma MoveByTwo(a: Address, d: nat, e: nat)
    requires d < 0x1_0000_0000_0000_0000 && e < 0x1_0000_0000_0000_0000
    ensures Back(Forth(a, d), e) == a <==> d == e
  {
    WrapSum(a + d, 0 - e);
    WrapMoves(a, d - e);
  }

  /** &base->path */
  function MemberAddress(base: Address, t: Type, path: Path): Address
    requires ValidPath(t, path)
  {
    Forth(base, Offset(t, path))
  }

  /** container_of(ptr, t, path) */
  function ContainerOf(ptr: Address, t: Type, path: Path): Address
    requires ValidPath(t, path)
  {
    Back(ptr, Offset(t, path))
  }

  /** container_of undoes taking the address of a member, for every base, and the other way
      round, even where the arithmetic on addresses wraps. */
  lemma RecoversContainer(base: Address, t: Type, path: Path)
    requires ValidPath(t, path)
    ensures ContainerOf(MemberAddress(base, t, path), t, path) == base
    ensures MemberAddress(ContainerOf(base, t, path), t, path) == base
  {
    ForthAndBack(base, Offset(t, path));
  }

  /** With the wrong member it finds another object: the right base comes out exactly when the
      two members have the same offset, which members apart from each other never have. */
  lemma OnlyTheRightMember(base: Address, t: Type, p: Path, q: Path)
    requires WellFormed(t) && Size(t) <= 0x1_0000_0000_0000_0000
    requires ValidPath(t, p) && ValidPath(t, q)
    ensures ContainerOf(MemberAddress(base, t, p), t, q) == base <==> Offset(t, p) == Offset(t, q)
    ensures Apart(p, q) ==> Offset(t, p) != Offset(t, q)
  {
    OffsetInside(t, p);
    OffsetInside(t, q);
    MoveByTwo(base, Offset(t, p), Offset(t, q));
    if Apart(p, q) { ApartDiffer(t, p, q); }
  }

  lemma ApartDiffer(t: Type, p: Path, q: Path)
    requires WellFormed(t) && ValidPath(t, p) && ValidPath(t, q) && Apart(p, q)
    ensures Offset(t, p) != Offset(t, q)
  {
    ApartIsDisjoint(t, p, q);
    OffsetInside(t, p);
    OffsetInside(t, q);
  }

  lemma OffsetInside(t: Type, path: Path)
    requires WellFormed(t) && ValidPath(t, path)
    ensures Offset(t, path) < Offset(t, path) + Size(TypeAt(t, path)) <= Size(t)
  {
    PathIsInside(t, path);
    PathIsWellFormed(t, path);
    SizeIsAligned(TypeAt(t, path));
  }

  lemma {:induction false} PathIsWellFormed(t: Type, path: Path)
    requires WellFormed(t) && ValidPath(t, path)
    ensures WellFormed(TypeAt(t, path))
    decreases |path|
  {
    if path != [] {
      assert t.members[path[0]] in t.members;
      PathIsWellFormed(t.members[path[0]], path[1..]);
    }
  }

  /** In an object that lies within the address space nothing wraps: a member's address is the
      base plus its offset, and lies in the object. */
  lemma AddressInside(base: Address, t: Type, path: Path)
    requires WellFormed(t) && ValidPath(t, path) && base + Size(t) <= 0x1_0000_0000_0000_0000
    ensures MemberAddress(base, t, path) == base + Offset(t, path) < base + Size(t)
  {
    OffsetInside(t, path);
    ForthIsSum(base, Offset(t, path));
  }

  lemma ForthIsSum(a: Address, d: nat)
    requires a + d < 0x1_0000_0000_0000_0000
    ensures Forth(a, d) == a + d
  {
  }

  /** The address of a member of a member, taken in two steps or in one. */
  lemma NestedAddress(base: Address, t: Type, outer: Path, inner: Path)
    requires ValidPath(t, outer) && ValidPath(TypeAt(t, outer), inner)
    ensures ValidPath(t, outer + inner)
    ensures MemberAddress(MemberAddress(base, t, outer), TypeAt(t, outer), inner)
            == MemberAddress(base, t, outer + inner)
  {
    NestedOffset(t, outer, inner);
    ForthTwice(base, Offset(t, outer), Offset(TypeAt(t, outer), inner));
  }

  lemma ForthTwice(a: Address, d: nat, e: nat)
    ensures Forth(Forth(a, d), e) == Forth(a, d + e)
  {
    WrapSum(a + d, e);
  }

  // ---------- the structs of the sample, on a 64-bit machine

  function InnerStruct(): Type { Struct([Scalar(1, 0), Scalar(4, 2)]) }

  /** header, aligned_value, nested_value, tail */
  function SomeStruct(): Type {
    Struct([Scalar(1, 0), Scalar(8, 3), InnerStruct(), Scalar(2, 1)])
  }

  /** Offsets and sizes of the sample: padding after header, inside nested_value and at the end. */
  lemma SampleLayout()
    ensures Size(InnerStruct()) == 8 && MemberOffset(InnerStruct().members, 1) == 4
    ensures var ms := SomeStruct().members;
      MemberOffset(ms, 0) == 0 && MemberOffset(ms, 1) == 8 && MemberOffset(ms, 2) == 16
      && MemberOffset(ms, 3) == 24 && Size(SomeStruct()) == 32
  {
    var inner, ms := InnerStruct().members, SomeStruct().members;
    assert EndBefore(inner, 1) == 1 && EndBefore(inner, 2) == 8;
    assert MaxExp(inner) == 2;
    assert EndBefore(ms, 1) == 1;
    assert EndBefore(ms, 2) == 16;
    assert EndBefore(ms, 3) == 24;
    assert EndBefore(ms, 4) == 26;
  }

  /** nested_value.value lies where the two offsets add up to. */
  lemma SampleNested()
    ensures ValidPath(SomeStruct(), [2, 1]) && Offset(SomeStruct(), [2, 1]) == 20
  {
    SampleLayout();
    assert [2, 1][1..] == [1];
    assert Offset(InnerStruct(), [1]) == 4 + Offset(Scalar(4, 2), []);
  }

  /** The three recoveries of the sample, for every address of obj. */
  lemma SampleRecoveries(obj: Address, path: Path)
    requires path == [1] || path == [3] || path == [2, 1]
    ensures ValidPath(SomeStruct(), path)
    ensures ContainerOf(MemberAddress(obj, SomeStruct(), path), SomeStruct(), path) == obj
  {
    SampleNested();
    RecoversContainer(obj, SomeStruct(), path);
  }
}

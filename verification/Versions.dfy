/** Orv version numbers and the sets of versions a node supports. */
module Versions {
  import opened Basics
  import opened Bits

  datatype Version = Version(major: uint8, minor: uint8)

  /** Both halves fit in four bits, which is all the wire format carries. */
  predicate Nibbles(v: Version) {
    v.major <= 15 && v.minor <= 15
  }

  predicate Above(v: Version, w: Version) {
    v.major > w.major || (v.major == w.major && v.minor > w.minor)
  }

  function New(major: uint8, minor: uint8): (r: Option<Version>)
    ensures r.Some? <==> Nibbles(Version(major, minor))
    ensures r.Some? ==> r.value == Version(major, minor)
  {
    if major > 15 then None else if minor > 15 then None else Some(Version(major, minor))
  }

  /** Major in the high nibble, minor in the low one; wider values lose their high bits. */
  function Byte(v: Version): uint8 {
    16 * (v.major % 16) + v.minor % 16
  }

  function FromByte(b: uint8): Version {
    Version(b / 16, b % 16)
  }

  /** The two conversions as the shifts and masks they are computed with. */
  lemma BytesAreBitwise(v: Version, b: uint8)
    ensures Byte(v) == Or((v.major * 16) % 256, And(v.minor, 0x0F))
    ensures FromByte(b).major == b / 16 && FromByte(b).minor == And(b, 0x0F)
  {
    assert Pow2(3) == 8;
    assert Pow2(4) == 16;
    AndMask(v.minor, 4);
    AndMask(b, 4);
    assert (v.major * 16) % 256 == (v.major % 16) * 16;
    OrDisjoint(v.major % 16, v.minor % 16, 4);
  }

  /** Decoding an encoded version keeps the low nibble of each half; encoding a decoded byte is exact. */
  lemma ByteRoundTrips(v: Version, b: uint8)
    ensures FromByte(Byte(v)) == Version(v.major % 16, v.minor % 16)
    ensures Nibbles(v) <==> FromByte(Byte(v)) == v
    ensures Nibbles(FromByte(b)) && Byte(FromByte(b)) == b
  {
  }

  lemma ByteIsMonotone(v: Version, w: Version)
    requires Nibbles(v) && Nibbles(w)
    ensures Byte(v) > Byte(w) <==> Above(v, w)
  {
  }

  /** Minor numbers grouped by major number, and the highest version seen. */
  datatype VersionSet = VersionSet(all: map<uint8, seq<uint8>>, highest: Version)

  function Occurrences(all: map<uint8, seq<uint8>>, v: Version): nat {
    if v.major in all then multiset(all[v.major])[v.minor] else 0
  }

  ghost predicate Counts(all: map<uint8, seq<uint8>>, vs: seq<Version>) {
    forall v :: Occurrences(all, v) == multiset(vs)[v]
  }

  predicate IsHighest(highest: Version, vs: seq<Version>) {
    if vs == [] then highest == Version(0, 0)
    else highest in vs && forall v | v in vs :: !Above(v, highest)
  }

  /** `s` holds the versions of `vs`, each as often as it was given, and knows the highest. */
  ghost predicate Catalogues(s: VersionSet, vs: seq<Version>) {
    Counts(s.all, vs) && IsHighest(s.highest, vs)
  }

  lemma AddOccurrence(all: map<uint8, seq<uint8>>, v: Version, vs: seq<Version>)
    requires Counts(all, vs)
    ensures Counts(all[v.major := (if v.major in all then all[v.major] else []) + [v.minor]], vs + [v])
  {
    var minors := if v.major in all then all[v.major] else [];
    var all' := all[v.major := minors + [v.minor]];
    forall w
      ensures Occurrences(all', w) == multiset(vs + [v])[w]
    {
      assert Occurrences(all, w) == multiset(vs)[w];
      assert multiset(vs + [v]) == multiset(vs) + multiset{v};
      assert multiset(minors + [v.minor]) == multiset(minors) + multiset{v.minor};
    }
  }

  lemma AddHighest(highest: Version, v: Version, vs: seq<Version>)
    requires IsHighest(highest, vs)
    ensures IsHighest(if Above(v, highest) then v else highest, vs + [v])
  {
    if vs == [] && !Above(v, highest) {
      assert v == highest;
    }
  }

  lemma AddVersion(s: VersionSet, v: Version, vs: seq<Version>)
    requires Catalogues(s, vs)
    ensures var minors := if v.major in s.all then s.all[v.major] else [];
            Catalogues(VersionSet(s.all[v.major := minors + [v.minor]], if Above(v, s.highest) then v else s.highest),
                       vs + [v])
  {
    AddOccurrence(s.all, v, vs);
    AddHighest(s.highest, v, vs);
  }

  method NewSet(vs: seq<Version>) returns (s: VersionSet)
    ensures Catalogues(s, vs)
  {
    s := VersionSet(map[], Version(0, 0));
    var i := 0;
    while i < |vs|
      invariant 0 <= i <= |vs|
      invariant Catalogues(s, vs[..i])
    {
      var v := vs[i];
      AddVersion(s, v, vs[..i]);
      assert vs[..i + 1] == vs[..i] + [v];
      assert [] + [v.minor] == [v.minor];
      if v.major !in s.all {
        s := s.(all := s.all[v.major := [v.minor]]);
      } else {
        s := s.(all := s.all[v.major := s.all[v.major] + [v.minor]]);
      }
      if v.major > s.highest.major || (v.major == s.highest.major && v.minor > s.highest.minor) {
        s := s.(highest := v);
      }
      i := i + 1;
    }
    assert vs[..|vs|] == vs;
  }

  predicate Supports(s: VersionSet, v: Version) {
    v.major in s.all && v.minor in s.all[v.major]
  }

  /** The two-level lookup agrees with membership in the plain list. */
  lemma SupportsIsMembership(s: VersionSet, vs: seq<Version>, v: Version)
    requires Catalogues(s, vs)
    ensures Supports(s, v) <==> v in vs
  {
    assert Occurrences(s.all, v) == multiset(vs)[v];
    assert v in vs <==> v in multiset(vs);
    assert v.major in s.all ==> (v.minor in s.all[v.major] <==> v.minor in multiset(s.all[v.major]));
  }

  /** The highest supported version is itself supported unless the set is empty. */
  lemma HighestIsSupported(s: VersionSet, vs: seq<Version>)
    requires Catalogues(s, vs)
    ensures Supports(s, s.highest) <==> vs != []
  {
    SupportsIsMembership(s, vs, s.highest);
  }

  // ---- AsBytes --------------------------------------------------------------------------------

  function Bytes(vs: seq<Version>): (bs: seq<uint8>)
    ensures |bs| == |vs| && forall i | 0 <= i < |vs| :: bs[i] == Byte(vs[i])
  {
    seq(|vs|, i requires 0 <= i < |vs| => Byte(vs[i]))
  }

  predicate Descending(bs: seq<uint8>) {
    |bs| <= 1 || (bs[0] >= bs[1] && Descending(bs[1..]))
  }

  lemma {:induction false} FirstIsTop(bs: seq<uint8>)
    requires Descending(bs)
    ensures forall i | 0 <= i < |bs| :: bs[0] >= bs[i]
  {
    if |bs| > 1 {
      FirstIsTop(bs[1..]);
      assert forall i | 0 < i < |bs| :: bs[i] == bs[1..][i - 1];
    }
  }

  function Insert(b: uint8, bs: seq<uint8>): (r: seq<uint8>)
    requires Descending(bs)
    ensures Descending(r)
    ensures |r| == |bs| + 1 && (r[0] == b || (bs != [] && r[0] == bs[0]))
    ensures multiset(r) == multiset(bs) + multiset{b}
  {
    if bs == [] || bs[0] <= b then
      assert ([b] + bs)[1..] == bs;
      [b] + bs
    else
      var r := Insert(b, bs[1..]);
      assert ([bs[0]] + r)[1..] == r;
      assert bs == [bs[0]] + bs[1..];
      [bs[0]] + r
  }

  /** The library's stable sort with the comparison inverted. */
  function SortDescending(bs: seq<uint8>): (r: seq<uint8>)
    ensures Descending(r) && multiset(r) == multiset(bs)
  {
    if bs == [] then []
    else
      assert bs == [bs[0]] + bs[1..];
      Insert(bs[0], SortDescending(bs[1..]))
  }

  /** Every supported version as one byte, highest first, whatever order the majors are visited in. */
  method AsBytes(s: VersionSet, ghost vs: seq<Version>) returns (out: seq<uint8>)
    requires Catalogues(s, vs)
    ensures Descending(out)
    ensures multiset(out) == multiset(Bytes(vs))
  {
    out := [];
    ghost var flat: seq<Version> := [];
    var todo := s.all.Keys;
    while todo != {}
      invariant todo <= s.all.Keys
      invariant out == Bytes(flat)
      invariant Collected(s.all, flat, todo)
    {
      assert exists major :: major in todo;
      var major :| major in todo;
      assert todo - {major} + {major} == todo;
      todo := todo - {major};
      var minors := s.all[major];
      var v := seq(|minors|, i requires 0 <= i < |minors| => Byte(Version(major, minors[i])));
      ghost var group := WithMajor(major, minors);
      GroupAdds(s.all, flat, todo, major);
      assert Bytes(flat + group) == out + v;
      flat := flat + group;
      out := out + v;
    }
    CollectedAll(s.all, flat, vs);
    SameVersionsSameBytes(flat, vs);
    out := SortDescending(out);
  }

  /** `flat` holds every version but those of the majors still to do. */
  ghost predicate Collected(all: map<uint8, seq<uint8>>, flat: seq<Version>, todo: set<uint8>) {
    forall v :: multiset(flat)[v] == if v.major in todo then 0 else Occurrences(all, v)
  }

  lemma CollectedAll(all: map<uint8, seq<uint8>>, flat: seq<Version>, vs: seq<Version>)
    requires Collected(all, flat, {}) && Counts(all, vs)
    ensures multiset(flat) == multiset(vs)
  {
    forall v
      ensures multiset(flat)[v] == multiset(vs)[v]
    {
      assert Occurrences(all, v) == multiset(vs)[v];
    }
  }

  /** Appending the versions of one more major accounts for them. */
  lemma GroupAdds(all: map<uint8, seq<uint8>>, flat: seq<Version>, todo: set<uint8>, major: uint8)
    requires major in all && major !in todo
    requires Collected(all, flat, todo + {major})
    ensures Collected(all, flat + WithMajor(major, all[major]), todo)
  {
    var group := WithMajor(major, all[major]);
    assert multiset(flat + group) == multiset(flat) + multiset(group);
    forall v
      ensures multiset(flat + group)[v] == if v.major in todo then 0 else Occurrences(all, v)
    {
      assert multiset(flat)[v] == if v.major in todo + {major} then 0 else Occurrences(all, v);
      WithMajorCounts(major, all[major], v);
    }
  }

  ghost function WithMajor(major: uint8, minors: seq<uint8>): seq<Version> {
    seq(|minors|, i requires 0 <= i < |minors| => Version(major, minors[i]))
  }

  lemma {:induction false} WithMajorCounts(major: uint8, minors: seq<uint8>, w: Version)
    ensures multiset(WithMajor(major, minors))[w] == if w.major == major then multiset(minors)[w.minor] else 0
  {
    if minors == [] {
      assert WithMajor(major, minors) == [];
    } else {
      var n := |minors| - 1;
      WithMajorCounts(major, minors[..n], w);
      assert minors == minors[..n] + [minors[n]];
      assert multiset(minors) == multiset(minors[..n]) + multiset{minors[n]};
      assert WithMajor(major, minors) == WithMajor(major, minors[..n]) + [Version(major, minors[n])];
      assert multiset(WithMajor(major, minors)) ==
             multiset(WithMajor(major, minors[..n])) + multiset{Version(major, minors[n])};
    }
  }

  lemma {:induction false} SameVersionsSameBytes(vs: seq<Version>, ws: seq<Version>)
    requires multiset(vs) == multiset(ws)
    ensures multiset(Bytes(vs)) == multiset(Bytes(ws))
    decreases |vs|
  {
    if vs == [] {
      assert |multiset(ws)| == 0;
    } else {
      assert vs[0] in multiset(ws);
      var k :| 0 <= k < |ws| && ws[k] == vs[0];
      RemoveAt(vs, 0);
      RemoveAt(ws, k);
      var vs', ws' := vs[..0] + vs[1..], ws[..k] + ws[k + 1..];
      Cancel(multiset(vs'), multiset(ws'), vs[0]);
      SameVersionsSameBytes(vs', ws');
    }
  }

  lemma Cancel(a: multiset<Version>, b: multiset<Version>, v: Version)
    requires a + multiset{v} == b + multiset{v}
    ensures a == b
  {
    assert a == (a + multiset{v}) - multiset{v};
    assert b == (b + multiset{v}) - multiset{v};
  }

  lemma RemoveAt(vs: seq<Version>, k: nat)
    requires k < |vs|
    ensures var rest := vs[..k] + vs[k + 1..];
            && multiset(vs) == multiset(rest) + multiset{vs[k]}
            && multiset(Bytes(vs)) == multiset(Bytes(rest)) + multiset{Byte(vs[k])}
  {
    var front, back := vs[..k], vs[k + 1..];
    assert vs == front + ([vs[k]] + back);
    assert multiset(vs) == multiset(front) + (multiset{vs[k]} + multiset(back));
    BytesConcat(front, [vs[k]] + back);
    BytesConcat([vs[k]], back);
    BytesConcat(front, back);
    assert Bytes([vs[k]]) == [Byte(vs[k])];
  }

  lemma BytesConcat(vs: seq<Version>, ws: seq<Version>)
    ensures Bytes(vs + ws) == Bytes(vs) + Bytes(ws)
  {
  }

  /** The part of a version its byte carries. */
  function Low(v: Version): Version {
    Version(v.major % 16, v.minor % 16)
  }

  /** The first byte announced is the greatest of all. */
  lemma FirstByteIsGreatest(vs: seq<Version>, out: seq<uint8>)
    requires vs != [] && Descending(out) && multiset(out) == multiset(Bytes(vs))
    ensures |out| == |vs| && forall v | v in vs :: Byte(v) <= out[0]
    ensures exists v | v in vs :: Byte(v) == out[0]
  {
    assert |out| == |multiset(out)| == |multiset(Bytes(vs))| == |vs|;
    FirstIsTop(out);
    forall v | v in vs
      ensures Byte(v) <= out[0]
    {
      var k :| 0 <= k < |vs| && vs[k] == v;
      assert Bytes(vs)[k] in multiset(out);
    }
    assert out[0] in multiset(Bytes(vs));
    var j :| 0 <= j < |vs| && Byte(vs[j]) == out[0];
  }

  /**
    The first byte announced is the highest version's exactly when no version's low four-bit halves are
    above those of the highest.
   */
  lemma FirstByteIsHighestIff(s: VersionSet, vs: seq<Version>, out: seq<uint8>)
    requires Catalogues(s, vs) && vs != []
    requires Descending(out) && multiset(out) == multiset(Bytes(vs))
    ensures |out| == |vs|
    ensures out[0] == Byte(s.highest) <==> forall v | v in vs :: !Above(Low(v), Low(s.highest))
  {
    FirstByteIsGreatest(vs, out);
    forall v
      ensures Byte(v) > Byte(s.highest) <==> Above(Low(v), Low(s.highest))
    {
      ByteIsMonotone(Low(v), Low(s.highest));
    }
  }

  /** So for versions that fit the wire format it always is. */
  lemma FirstByteIsHighest(s: VersionSet, vs: seq<Version>, out: seq<uint8>)
    requires Catalogues(s, vs) && vs != [] && forall v | v in vs :: Nibbles(v)
    requires Descending(out) && multiset(out) == multiset(Bytes(vs))
    ensures |out| == |vs| && out[0] == Byte(s.highest)
  {
    FirstByteIsHighestIff(s, vs, out);
    LowOfNibbles(s.highest);
    forall v | v in vs
      ensures !Above(Low(v), Low(s.highest))
    {
      LowOfNibbles(v);
    }
  }

  lemma LowOfNibbles(v: Version)
    requires Nibbles(v)
    ensures Low(v) == v
  {
  }

  /** Wider version numbers can break it: 16.0 encodes as 0.0, below 1.0. */
  lemma WideVersionsMisorder()
    ensures Above(Version(16, 0), Version(1, 0)) && Byte(Version(16, 0)) < Byte(Version(1, 0))
  {
  }
}

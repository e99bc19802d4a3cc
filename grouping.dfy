/**
 * Grouping listings by accommodation type, as the engine and the routes do with a
 * dictionary keyed by `acc.type` filled in a `forEach`: a group is created the
 * first time a type is seen, so the groups come out in first-occurrence order
 * (JavaScript keeps insertion order for such string keys).
 */
module Grouping {
  import opened Wrappers
  import opened Schema
  import opened Numeric
  import opened Listings

  /** The dictionary keys: each type present, once, in order of first appearance. */
  function Kinds(ls: seq<Listing>): (ks: seq<AccommodationType>)
    ensures forall i, j :: 0 <= i < j < |ks| ==> ks[i] != ks[j]
    ensures forall i :: 0 <= i < |ls| ==> ls[i].kind in ks
  {
    if ls == [] then []
    else
      var prefix := ls[..|ls| - 1];
      var x := ls[|ls| - 1];
      var ks := Kinds(prefix);
      assert forall i :: 0 <= i < |prefix| ==> prefix[i] == ls[i];
      if x.kind in ks then ks else ks + [x.kind]
  }

  /** The filter condition `acc.type === type`. */
  function IsKind(t: AccommodationType): Listing -> bool
  {
    (l: Listing) => l.kind == t
  }

  /** The listings of one type, in input order (`accommodations.filter((acc) => acc.type === type)`). */
  function OfKind(ls: seq<Listing>, t: AccommodationType): seq<Listing>
  {
    Filter(ls, IsKind(t))
  }

  /** A type's group holds exactly the listings of that type. */
  lemma OfKindMembers(ls: seq<Listing>, t: AccommodationType)
    ensures forall i :: 0 <= i < |OfKind(ls, t)| ==> OfKind(ls, t)[i].kind == t
    ensures forall l :: l in OfKind(ls, t) <==> l in ls && l.kind == t
  {
  }

  lemma {:induction false} OfKindSnoc(ls: seq<Listing>, x: Listing, t: AccommodationType)
    ensures OfKind(ls + [x], t) == if x.kind == t then OfKind(ls, t) + [x] else OfKind(ls, t)
  {
    FilterSnoc(ls, x, IsKind(t));
  }

  lemma {:induction false} KindsSnoc(ls: seq<Listing>, x: Listing)
    ensures Kinds(ls + [x]) == if x.kind in Kinds(ls) then Kinds(ls) else Kinds(ls) + [x.kind]
  {
    assert (ls + [x])[..|ls|] == ls;
  }

  /** A type is a key of the dictionary exactly when its group is non-empty. */
  lemma {:induction false} KindsNonEmpty(ls: seq<Listing>, t: AccommodationType)
    ensures t in Kinds(ls) <==> |OfKind(ls, t)| > 0
  {
    if ls != [] {
      var p := ls[..|ls| - 1];
      var x := ls[|ls| - 1];
      assert ls == p + [x];
      KindsNonEmpty(p, t);
      KindsSnoc(p, x);
      OfKindSnoc(p, x, t);
    }
  }

  /** A type that is not a key has an empty group. */
  lemma OfKindAbsent(ls: seq<Listing>, t: AccommodationType)
    requires t !in Kinds(ls)
    ensures OfKind(ls, t) == []
  {
    KindsNonEmpty(ls, t);
  }

  /** The position of `t` among the groups, if it has one. */
  function IndexOf(ks: seq<AccommodationType>, t: AccommodationType): (r: Option<nat>)
    ensures r.Some? ==> r.value < |ks| && ks[r.value] == t
    ensures r.None? <==> t !in ks
  {
    if ks == [] then None
    else if ks[|ks| - 1] == t then Some(|ks| - 1)
    else
      var r := IndexOf(ks[..|ks| - 1], t);
      assert forall u :: u in ks <==> u in ks[..|ks| - 1] || u == ks[|ks| - 1];
      r
  }

  /** The group sizes, one per key. */
  function Sizes(ls: seq<Listing>): (s: seq<int>)
    ensures |s| == |Kinds(ls)|
  {
    var ks := Kinds(ls);
    seq(|ks|, k requires 0 <= k < |ks| => |OfKind(ls, ks[k])|)
  }

  /** The group sizes add up to the number of listings: every listing is in exactly one group. */
  lemma {:induction false} CountsPartition(ls: seq<Listing>)
    ensures SumInt(Sizes(ls)) == |ls|
  {
    if ls != [] {
      var p := ls[..|ls| - 1];
      var x := ls[|ls| - 1];
      assert ls == p + [x];
      CountsPartition(p);
      SizesSnoc(p, x);
    }
  }

  /** Appending a listing adds one to the size of its group, or opens a group of size one. */
  lemma {:induction false} SizesSnoc(p: seq<Listing>, x: Listing)
    ensures SumInt(Sizes(p + [x])) == SumInt(Sizes(p)) + 1
  {
    match IndexOf(Kinds(p), x.kind)
    case Some(q) =>
      SizesBump(p, x, q);
      SumIntBump(Sizes(p), q);
    case None =>
      SizesOpen(p, x);
      SumIntSnoc(Sizes(p), 1);
  }

  /** One more listing of a type already present adds one to that type's group size and nothing to the others. */
  lemma {:induction false} SizeSnoc(p: seq<Listing>, x: Listing, k: nat)
    requires x.kind in Kinds(p) && k < |Kinds(p)|
    ensures |Sizes(p + [x])| == |Sizes(p)|
    ensures Sizes(p + [x])[k] == Sizes(p)[k] + (if Kinds(p)[k] == x.kind then 1 else 0)
  {
    KindsSnoc(p, x);
    OfKindSnoc(p, x, Kinds(p)[k]);
  }

  lemma {:induction false} SizesBump(p: seq<Listing>, x: Listing, q: nat)
    requires q < |Kinds(p)| && Kinds(p)[q] == x.kind
    ensures Sizes(p + [x]) == Sizes(p)[q := Sizes(p)[q] + 1]
  {
    var ks := Kinds(p);
    var before, after := Sizes(p), Sizes(p + [x]);
    SizeSnoc(p, x, q);
    forall k | 0 <= k < |ks| ensures after[k] == before[q := before[q] + 1][k] {
      SizeSnoc(p, x, k);
      assert ks[k] == x.kind <==> k == q;
    }
  }

  /** After a listing of a new type, each old group keeps its size and the new group has size one. */
  lemma {:induction false} SizeOpenAt(p: seq<Listing>, x: Listing, k: nat)
    requires x.kind !in Kinds(p) && k <= |Kinds(p)|
    ensures |Sizes(p + [x])| == |Sizes(p)| + 1
    ensures Sizes(p + [x])[k] == (Sizes(p) + [1])[k]
  {
    KindsSnoc(p, x);
    var ks := Kinds(p);
    if k < |ks| {
      OfKindSnoc(p, x, ks[k]);
    } else {
      OfKindAbsent(p, x.kind);
      OfKindSnoc(p, x, x.kind);
    }
  }

  lemma {:induction false} SizesOpen(p: seq<Listing>, x: Listing)
    requires x.kind !in Kinds(p)
    ensures Sizes(p + [x]) == Sizes(p) + [1]
  {
    SizeOpenAt(p, x, 0);
    forall k | 0 <= k < |Sizes(p + [x])| ensures Sizes(p + [x])[k] == (Sizes(p) + [1])[k] {
      SizeOpenAt(p, x, k);
    }
  }

  /** `groups` holds, for each key of `ks`, exactly the listings of `p` of that type. */
  ghost predicate Grouped(p: seq<Listing>, ks: seq<AccommodationType>, groups: seq<seq<Listing>>)
  {
    && ks == Kinds(p)
    && |groups| == |ks|
    && forall k :: 0 <= k < |ks| ==> groups[k] == OfKind(p, ks[k])
  }

  /** After a listing of a type already grouped, its group has the listing appended and every other group is unchanged. */
  lemma {:induction false} GroupJoinAt(p: seq<Listing>, x: Listing, ks: seq<AccommodationType>, groups: seq<seq<Listing>>, q: nat, k: nat)
    requires Grouped(p, ks, groups)
    requires q < |ks| && ks[q] == x.kind && k < |ks|
    ensures groups[q := groups[q] + [x]][k] == OfKind(p + [x], ks[k])
  {
    OfKindSnoc(p, x, ks[k]);
    assert ks[k] == x.kind <==> k == q;
  }

  /** A listing of a type already grouped joins that group; every group stays the filter of its type. */
  lemma {:induction false} GroupJoin(p: seq<Listing>, x: Listing, ks: seq<AccommodationType>, groups: seq<seq<Listing>>, q: nat)
    requires Grouped(p, ks, groups)
    requires q < |ks| && ks[q] == x.kind
    ensures Grouped(p + [x], ks, groups[q := groups[q] + [x]])
  {
    KindsSnoc(p, x);
    var groups' := groups[q := groups[q] + [x]];
    forall k | 0 <= k < |ks| ensures groups'[k] == OfKind(p + [x], ks[k]) {
      GroupJoinAt(p, x, ks, groups, q, k);
    }
  }

  /** After a listing of a new type, each old group is unchanged and the new group holds that listing alone. */
  lemma {:induction false} GroupOpenAt(p: seq<Listing>, x: Listing, ks: seq<AccommodationType>, groups: seq<seq<Listing>>, k: nat)
    requires Grouped(p, ks, groups)
    requires x.kind !in ks && k <= |ks|
    ensures (groups + [[x]])[k] == OfKind(p + [x], (ks + [x.kind])[k])
  {
    if k < |ks| {
      OfKindSnoc(p, x, ks[k]);
    } else {
      OfKindAbsent(p, x.kind);
      OfKindSnoc(p, x, x.kind);
    }
  }

  /** A listing of a new type opens a group of its own; the other groups are unchanged. */
  lemma {:induction false} GroupOpen(p: seq<Listing>, x: Listing, ks: seq<AccommodationType>, groups: seq<seq<Listing>>)
    requires Grouped(p, ks, groups)
    requires x.kind !in ks
    ensures Grouped(p + [x], ks + [x.kind], groups + [[x]])
  {
    KindsSnoc(p, x);
    var ks', groups' := ks + [x.kind], groups + [[x]];
    forall k | 0 <= k < |ks'| ensures groups'[k] == OfKind(p + [x], ks'[k]) {
      GroupOpenAt(p, x, ks, groups, k);
    }
  }

  /**
   * The `forEach` that fills the dictionary: a new group for a type not seen yet,
   * otherwise the listing joins the group of its type.
   */
  method GroupByKind(ls: seq<Listing>) returns (ks: seq<AccommodationType>, groups: seq<seq<Listing>>)
    ensures ks == Kinds(ls)
    ensures |groups| == |ks|
    ensures forall k :: 0 <= k < |ks| ==> groups[k] == OfKind(ls, ks[k])
  {
    ks, groups := [], [];
    assert ls[..0] == [];
    var i := 0;
    while i < |ls|
      invariant 0 <= i <= |ls|
      invariant Grouped(ls[..i], ks, groups)
    {
      var x := ls[i];
      PrefixSnoc(ls, i);
      var found := IndexOf(ks, x.kind);
      if found.Some? {
        GroupJoin(ls[..i], x, ks, groups, found.value);
        groups := groups[found.value := groups[found.value] + [x]];
      } else {
        GroupOpen(ls[..i], x, ks, groups);
        ks := ks + [x.kind];
        groups := groups + [[x]];
      }
      i := i + 1;
    }
    assert ls[..i] == ls;
  }
}

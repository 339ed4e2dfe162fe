/**
 The animation database: raw frames checked, converted, and grouped into animations that can
 be found by name or by hashed name.
 */
module AnimationDb {
  import opened Counting
  import opened Options
  import opened Fnv
  import opened ByteStrings
  import opened Sorting

  datatype Rect = Rect(x: int, y: int, w: int, h: int)

  datatype Raw = Raw(
    path: Bytes, name: Bytes, frame: int, aabb: Rect, duration: int,
    pbox: Option<Rect>, cbox: Option<Rect>, tile: bool)

  datatype Frame = Frame(
    animId: nat, image: nat, path: Bytes, name: Bytes, frame: int, duration: int,
    sample: Rect, pbox: Rect, cbox: Rect, tile: bool)

  datatype Anim = Anim(id: nat, name: Bytes, tile: bool, indices: seq<nat>)

  datatype Db = Db(
    images: seq<Bytes>, frames: seq<Frame>, anims: seq<Anim>, byName: map<Bytes, nat>, byId: map<nat, nat>)

  function Id(name: Bytes): nat { FoldBytes(Step32, OFFSET_BASIS_32, name) }

  // ----- what the database has to be -----

  predicate ValidRaw(r: Raw) {
    r.path != [] && r.name != [] && r.frame >= 0 && r.aabb.w > 0 && r.aabb.h > 0
  }

  predicate Fits(r: Raw, f: Frame) {
    && f.animId == Id(r.name) && f.path == r.path && f.name == r.name && f.frame == r.frame && f.tile == r.tile
    && f.duration == (if r.duration > 0 then r.duration else 1) && f.sample == r.aabb
    && f.pbox == (if r.pbox.Some? then r.pbox.value else Rect(0, 0, r.aabb.w, r.aabb.h))
    && f.cbox == (if r.cbox.Some? then r.cbox.value else f.pbox)
  }

  // No two frames of a name share a number or differ in the tile flag.
  ghost predicate NameGood(raws: seq<Raw>, name: Bytes) {
    forall i, j :: 0 <= i < j < |raws| && raws[i].name == name && raws[j].name == name ==>
      raws[i].frame != raws[j].frame && raws[i].tile == raws[j].tile
  }

  ghost predicate NoCollision(raws: seq<Raw>) {
    forall i, j :: 0 <= i < |raws| && 0 <= j < |raws| && Id(raws[i].name) == Id(raws[j].name) ==>
      raws[i].name == raws[j].name
  }

  ghost predicate Acceptable(raws: seq<Raw>) {
    && (forall i :: 0 <= i < |raws| ==> ValidRaw(raws[i]))
    && (forall i :: 0 <= i < |raws| ==> NameGood(raws, raws[i].name))
    && NoCollision(raws)
  }

  // The paths, each at its first occurrence.
  function Interned(raws: seq<Raw>): seq<Bytes> {
    if raws == [] then []
    else
      var rest, last := Interned(raws[..|raws| - 1]), raws[|raws| - 1].path;
      if last in rest then rest else rest + [last]
  }

  ghost predicate FramesRight(raws: seq<Raw>, images: seq<Bytes>, frames: seq<Frame>) {
    && |frames| == |raws| && images == Interned(raws)
    && forall i :: 0 <= i < |raws| ==> FrameRight(raws[i], images, frames[i])
  }

  predicate FrameRight(raw: Raw, images: seq<Bytes>, f: Frame) {
    Fits(raw, f) && f.image < |images| && images[f.image] == raw.path
  }

  // The frames of one name, all of them, in strictly increasing order.
  ghost predicate AnimRight(raws: seq<Raw>, a: Anim) {
    && a.id == Id(a.name) && a.indices != []
    && (forall i: nat :: i in a.indices <==> i < |raws| && raws[i].name == a.name)
    && StrictlyOrdered(raws, a.indices)
    && (forall i :: i in a.indices ==> raws[i].tile == a.tile)
  }

  ghost predicate StrictlyOrdered(raws: seq<Raw>, s: seq<nat>) {
    && (forall k :: 0 <= k < |s| ==> s[k] < |raws|)
    && (forall j, k :: 0 <= j < k < |s| ==> raws[s[j]].frame < raws[s[k]].frame)
  }

  ghost predicate AnimsRight(raws: seq<Raw>, anims: seq<Anim>) {
    && (forall k :: 0 <= k < |anims| ==> AnimRight(raws, anims[k]))
    && Ascending(NamesOf(anims))
  }

  function NamesOf(anims: seq<Anim>): seq<Bytes> {
    seq(|anims|, k requires 0 <= k < |anims| => anims[k].name)
  }

  ghost predicate NamesRight(anims: seq<Anim>, byName: map<Bytes, nat>) {
    && (forall n :: n in byName ==> byName[n] < |anims| && anims[byName[n]].name == n)
    && (forall k :: 0 <= k < |anims| ==> anims[k].name in byName)
  }

  ghost predicate IdsRight(anims: seq<Anim>, byId: map<nat, nat>) {
    && (forall d :: d in byId ==> byId[d] < |anims| && anims[byId[d]].id == d)
    && (forall k :: 0 <= k < |anims| ==> anims[k].id in byId)
  }

  ghost predicate DbRight(raws: seq<Raw>, db: Db) {
    && FramesRight(raws, db.images, db.frames)
    && AnimsRight(raws, db.anims) && (forall i :: 0 <= i < |raws| ==> raws[i].name in db.byName)
    && NamesRight(db.anims, db.byName) && IdsRight(db.anims, db.byId)
  }

  // ----- what follows -----

  lemma {:induction false} InternedOnce(raws: seq<Raw>)
    ensures NoRepeats(Interned(raws))
    ensures forall p :: p in Interned(raws) <==> exists i :: 0 <= i < |raws| && raws[i].path == p
  {
    if raws != [] {
      var n := |raws| - 1;
      InternedOnce(raws[..n]);
      forall p ensures p in Interned(raws) <==> exists i :: 0 <= i < |raws| && raws[i].path == p {
        if p in Interned(raws[..n]) {
          var i :| 0 <= i < n && raws[..n][i].path == p;
          assert raws[i].path == p;
        }
        if i :| 0 <= i < |raws| && raws[i].path == p {
          if i < n { assert raws[..n][i].path == p; }
        }
      }
    }
  }

  // The animation of a frame.
  lemma HomeIs(raws: seq<Raw>, db: Db, i: nat, a: nat)
    requires DbRight(raws, db) && i < |raws| && a < |db.anims|
    ensures raws[i].name in db.byName && db.byName[raws[i].name] < |db.anims|
    ensures i in db.anims[a].indices <==> a == db.byName[raws[i].name]
  {
    hide Less, StrictlyOrdered, FramesRight, IdsRight, Id;
    assert AnimRight(raws, db.anims[a]);
    var home := db.byName[raws[i].name];
    if db.anims[a].name == raws[i].name {
      NamesDiffer(db.anims, a, home);
    }
  }

  /** Each frame belongs to exactly one animation, at exactly one place. */
  lemma Partition(raws: seq<Raw>, db: Db, i: nat)
    requires DbRight(raws, db) && i < |raws|
    ensures exists a, k :: 0 <= a < |db.anims| && 0 <= k < |db.anims[a].indices| && db.anims[a].indices[k] == i
    ensures forall a, k, b, l ::
              && 0 <= a < |db.anims| && 0 <= k < |db.anims[a].indices| && db.anims[a].indices[k] == i
              && 0 <= b < |db.anims| && 0 <= l < |db.anims[b].indices| && db.anims[b].indices[l] == i
              ==> a == b && k == l
  {
    HomeIs(raws, db, i, db.byName[raws[i].name]);
    var home := db.byName[raws[i].name];
    assert AnimRight(raws, db.anims[home]);
    forall a | 0 <= a < |db.anims| ensures i in db.anims[a].indices <==> a == home {
      HomeIs(raws, db, i, a);
    }
    var s := db.anims[home].indices;
    assert StrictlyOrdered(raws, s);
    hide DbRight, AnimRight;
  }

  // Frames of one name in order make one list.
  lemma {:induction false} OneOrder(raws: seq<Raw>, s: seq<nat>, t: seq<nat>)
    requires StrictlyOrdered(raws, s) && StrictlyOrdered(raws, t) && forall i: nat :: i in s <==> i in t
    ensures s == t
  {
    if s == [] {
      FirstMember(t);
    } else {
      assert s[0] in t && t[0] in s;
      assert s[0] == t[0];
      forall i: nat ensures i in s[1..] <==> i in t[1..] {
        if i in s[1..] { assert i in t && i != s[0]; }
        if i in t[1..] { assert i in s && i != t[0]; }
      }
      OneOrder(raws, s[1..], t[1..]);
      assert s == [s[0]] + s[1..] && t == [t[0]] + t[1..];
    }
  }

  lemma SameAnim(raws: seq<Raw>, a: Anim, b: Anim)
    requires AnimRight(raws, a) && AnimRight(raws, b) && a.name == b.name
    ensures a == b
  {
    OneOrder(raws, a.indices, b.indices);
    assert a.indices[0] in a.indices;
  }

  // The names of the animations are the names of the frames.
  lemma NamesAre(raws: seq<Raw>, db: Db, name: Bytes)
    requires DbRight(raws, db)
    ensures name in NamesOf(db.anims) <==> exists i :: 0 <= i < |raws| && raws[i].name == name
  {
    hide Less, StrictlyOrdered, FramesRight, IdsRight, Id;
    if name in NamesOf(db.anims) {
      var k :| 0 <= k < |db.anims| && NamesOf(db.anims)[k] == name;
      assert AnimRight(raws, db.anims[k]);
      assert db.anims[k].indices[0] in db.anims[k].indices;
    }
    if i :| 0 <= i < |raws| && raws[i].name == name {
      assert NamesOf(db.anims)[db.byName[name]] == name;
    }
  }

  lemma SameNames(raws: seq<Raw>, a: Db, b: Db)
    requires DbRight(raws, a) && DbRight(raws, b)
    ensures NamesOf(a.anims) == NamesOf(b.anims)
  {
    forall name ensures name in NamesOf(a.anims) <==> name in NamesOf(b.anims) {
      NamesAre(raws, a, name);
      NamesAre(raws, b, name);
    }
    assert Ascending(NamesOf(a.anims)) && Ascending(NamesOf(b.anims));
    hide *;
    AscendingUnique(NamesOf(a.anims), NamesOf(b.anims));
  }

  lemma SameAnims(raws: seq<Raw>, a: seq<Anim>, b: seq<Anim>)
    requires AnimsRight(raws, a) && AnimsRight(raws, b) && NamesOf(a) == NamesOf(b)
    ensures a == b
  {
    hide AnimRight, Ascending;
    assert |a| == |NamesOf(a)| == |b|;
    forall k | 0 <= k < |a| ensures a[k] == b[k] {
      assert a[k].name == NamesOf(a)[k] == NamesOf(b)[k] == b[k].name;
      SameAnim(raws, a[k], b[k]);
    }
  }

  lemma SameFrames(raws: seq<Raw>, images: seq<Bytes>, f: seq<Frame>, g: seq<Frame>)
    requires FramesRight(raws, images, f) && FramesRight(raws, images, g)
    ensures f == g
  {
    InternedOnce(raws);
    hide Interned, Id;
    forall i | 0 <= i < |raws| ensures f[i] == g[i] {
      assert images[f[i].image] == images[g[i].image];
    }
  }

  lemma NamesDiffer(a: seq<Anim>, j: nat, k: nat)
    requires Ascending(NamesOf(a)) && j < |a| && k < |a| && a[j].name == a[k].name
    ensures j == k
  {
    hide Less, Ascending;
    assert NamesOf(a)[j] == NamesOf(a)[k];
    AscendingDistinct(NamesOf(a), j, k);
  }

  lemma SameByName(a: seq<Anim>, m: map<Bytes, nat>, n: map<Bytes, nat>)
    requires Ascending(NamesOf(a)) && NamesRight(a, m) && NamesRight(a, n)
    ensures m == n
  {
    hide Ascending, NamesOf;
    forall x | x in m ensures x in n && m[x] == n[x] {
      assert a[m[x]].name == x;
      NamesDiffer(a, m[x], n[x]);
    }
    forall x | x in n ensures x in m {
      assert a[n[x]].name == x;
    }
  }

  lemma IdsDiffer(raws: seq<Raw>, anims: seq<Anim>, j: nat, k: nat)
    requires AnimsRight(raws, anims) && NoCollision(raws) && j < |anims| && k < |anims| && anims[j].id == anims[k].id
    ensures j == k
  {
    hide Less, StrictlyOrdered, Id;
    assert AnimRight(raws, anims[j]) && AnimRight(raws, anims[k]);
    var p, q := anims[j].indices[0], anims[k].indices[0];
    assert p in anims[j].indices && q in anims[k].indices;
    NamesDiffer(anims, j, k);
  }

  lemma SameById(raws: seq<Raw>, a: seq<Anim>, d: map<nat, nat>, e: map<nat, nat>)
    requires AnimsRight(raws, a) && NoCollision(raws) && IdsRight(a, d) && IdsRight(a, e)
    ensures d == e
  {
    hide AnimsRight, NoCollision;
    forall x | x in d ensures x in e && d[x] == e[x] {
      assert a[d[x]].id == x;
      IdsDiffer(raws, a, d[x], e[x]);
    }
    forall x | x in e ensures x in d {
      assert a[e[x]].id == x;
    }
  }

  /** The database is determined by the raw frames, whatever order its hash maps iterate in. */
  lemma Determined(raws: seq<Raw>, a: Db, b: Db)
    requires DbRight(raws, a) && DbRight(raws, b) && NoCollision(raws)
    ensures a == b
  {
    SameNames(raws, a, b);
    SameAnims(raws, a.anims, b.anims);
    assert FramesRight(raws, a.images, a.frames) && FramesRight(raws, b.images, b.frames) && a.images == b.images;
    SameFrames(raws, a.images, a.frames, b.frames);
    SameByName(a.anims, a.byName, b.byName);
    SameById(raws, a.anims, a.byId, b.byId);
  }

  // ----- grouping and sorting -----

  // The indices below n of the frames of a name, in order.
  function IndicesOf(raws: seq<Raw>, name: Bytes, n: nat): seq<nat>
    requires n <= |raws|
  {
    if n == 0 then []
    else if raws[n - 1].name == name then IndicesOf(raws, name, n - 1) + [n - 1]
    else IndicesOf(raws, name, n - 1)
  }

  lemma {:induction false} IndicesAre(raws: seq<Raw>, name: Bytes, n: nat)
    requires n <= |raws|
    ensures NoRepeats(IndicesOf(raws, name, n))
    ensures forall i: nat :: i in IndicesOf(raws, name, n) <==> i < n && raws[i].name == name
  {
    if n > 0 { IndicesAre(raws, name, n - 1); }
  }

  ghost predicate InRange(raws: seq<Raw>, s: seq<nat>) {
    forall k :: 0 <= k < |s| ==> s[k] < |raws|
  }

  ghost predicate Ordered(raws: seq<Raw>, s: seq<nat>)
    requires InRange(raws, s)
  {
    forall j, k :: 0 <= j < k < |s| ==> raws[s[j]].frame <= raws[s[k]].frame
  }

  function ByFrame(raws: seq<Raw>): Relation<nat> {
    (i: nat, j: nat) => FrameNumber(raws, i) < FrameNumber(raws, j)
  }

  function FrameNumber(raws: seq<Raw>, i: nat): int { if i < |raws| then raws[i].frame else 0 }

  function SortedByFrame(raws: seq<Raw>, s: seq<nat>): (r: seq<nat>)
    requires InRange(raws, s)
    ensures InRange(raws, r) && Ordered(raws, r)
    ensures forall x: nat :: x in r <==> x in s
    ensures NoRepeats(s) ==> NoRepeats(r)
  {
    SortSorts(ByFrame(raws), s);
    SortedMembers(ByFrame(raws), s);
    var r := Sorted(ByFrame(raws), s);
    assert forall k :: 0 <= k < |r| ==> r[k] in s;
    r
  }

  // Neighbours in frame order differ in number and agree in tile flag.
  predicate NeighboursGood(raws: seq<Raw>, s: seq<nat>, k: nat)
    requires InRange(raws, s) && k <= |s|
  {
    forall j :: 1 <= j < k ==> raws[s[j - 1]].frame != raws[s[j]].frame && raws[s[j - 1]].tile == raws[s[j]].tile
  }

  lemma {:induction false} NeighboursReach(raws: seq<Raw>, s: seq<nat>, j: nat, k: nat)
    requires InRange(raws, s) && Ordered(raws, s) && NeighboursGood(raws, s, |s|) && j < k < |s|
    ensures raws[s[j]].frame < raws[s[k]].frame && raws[s[j]].tile == raws[s[k]].tile
  {
    if j + 1 < k { NeighboursReach(raws, s, j, k - 1); }
  }

  ghost predicate Lists(raws: seq<Raw>, s: seq<nat>, name: Bytes) {
    && InRange(raws, s) && Ordered(raws, s) && NoRepeats(s)
    && forall i: nat :: i in s <==> i < |raws| && raws[i].name == name
  }

  lemma GoodNeighboursGood(raws: seq<Raw>, s: seq<nat>, name: Bytes)
    requires Lists(raws, s, name) && NeighboursGood(raws, s, |s|)
    ensures NameGood(raws, name)
    ensures StrictlyOrdered(raws, s) && forall i :: i in s ==> raws[i].tile == raws[s[0]].tile
  {
    forall j, k | 0 <= j < k < |s| ensures raws[s[j]].frame < raws[s[k]].frame && raws[s[j]].tile == raws[s[k]].tile {
      NeighboursReach(raws, s, j, k);
    }
    hide Ordered, NeighboursGood, NoRepeats;
    forall i, j | 0 <= i < j < |raws| && raws[i].name == name && raws[j].name == name
      ensures raws[i].frame != raws[j].frame && raws[i].tile == raws[j].tile
    {
      assert i in s && j in s;
      var p :| 0 <= p < |s| && s[p] == i;
      var q :| 0 <= q < |s| && s[q] == j;
    }
  }

  lemma BadNeighboursBad(raws: seq<Raw>, s: seq<nat>, name: Bytes)
    requires Lists(raws, s, name) && NameGood(raws, name)
    ensures NeighboursGood(raws, s, |s|)
  {
  }

  /** Checking neighbours in frame order is checking every pair. */
  lemma NeighboursSuffice(raws: seq<Raw>, s: seq<nat>, name: Bytes)
    requires Lists(raws, s, name)
    ensures InRange(raws, s)
    ensures NeighboursGood(raws, s, |s|) <==> NameGood(raws, name)
    ensures NeighboursGood(raws, s, |s|) && s != [] ==> AnimRight(raws, Anim(Id(name), name, raws[s[0]].tile, s))
  {
    hide Id;
    if NeighboursGood(raws, s, |s|) { GoodNeighboursGood(raws, s, name); }
    if NameGood(raws, name) { BadNeighboursBad(raws, s, name); }
    hide NeighboursGood, NameGood, StrictlyOrdered, Ordered, NoRepeats;
  }

  lemma GroupLists(raws: seq<Raw>, name: Bytes, group: seq<nat>)
    requires group != [] && group == IndicesOf(raws, name, |raws|)
    ensures InRange(raws, group)
    ensures Lists(raws, SortedByFrame(raws, group), name) && SortedByFrame(raws, group) != []
  {
    IndicesAre(raws, name, |raws|);
    FirstMember(group);
    assert InRange(raws, group) by {
      forall k | 0 <= k < |group| ensures group[k] < |raws| { assert group[k] in group; }
    }
    assert group[0] in SortedByFrame(raws, group);
  }

  // ----- building the database -----

  method Hash(name: Bytes) returns (id: nat)
    ensures id == Id(name)
  {
    id := HashAFrameId(name);
  }

  method ToFrame(raw: Raw) returns (f: Option<Frame>)
    ensures f.Some? <==> ValidRaw(raw)
    ensures f.Some? ==> Fits(raw, f.value)
  {
    if raw.path == [] || raw.name == [] || raw.frame < 0 || raw.aabb.w <= 0 || raw.aabb.h <= 0 {
      return None;
    }
    var id := Hash(raw.name);
    var duration := if raw.duration > 0 then raw.duration else 1;
    var pbox := if raw.pbox.Some? then raw.pbox.value else Rect(0, 0, raw.aabb.w, raw.aabb.h);
    var cbox := if raw.cbox.Some? then raw.cbox.value else pbox;
    f := Some(Frame(id, 0, raw.path, raw.name, raw.frame, duration, raw.aabb, pbox, cbox, raw.tile));
  }

  method ConvertAll(raws: seq<Raw>) returns (ok: bool, images: seq<Bytes>, frames: seq<Frame>)
    ensures ok <==> forall i :: 0 <= i < |raws| ==> ValidRaw(raws[i])
    ensures ok ==> FramesRight(raws, images, frames)
  {
    images, frames := [], [];
    var imageIdByPath: map<Bytes, nat> := map[];
    for i := 0 to |raws|
      invariant forall k :: 0 <= k < i ==> ValidRaw(raws[k])
      invariant FramesRight(raws[..i], images, frames)
      invariant forall p :: p in imageIdByPath <==> p in images
      invariant forall p :: p in imageIdByPath ==> imageIdByPath[p] < |images| && images[imageIdByPath[p]] == p
    {
      var frame := ToFrame(raws[i]);
      if frame.None? {
        return false, images, frames;
      }
      var path := frame.value.path;
      hide Fits, Interned, ValidRaw, FramesRight;
      ghost var before := images;
      var image: nat;
      if path in imageIdByPath {
        image := imageIdByPath[path];
      } else {
        image := |images|;
        images := images + [path];
        imageIdByPath := imageIdByPath[path := image];
      }
      FramesStep(raws, i, before, frames, frame.value, images, image);
      frames := frames + [frame.value.(image := image)];
    }
    assert raws[..|raws|] == raws;
    ok := true;
  }

  lemma FramesStep(
    raws: seq<Raw>, i: nat, before: seq<Bytes>, frames: seq<Frame>, f: Frame, images: seq<Bytes>, image: nat)
    requires i < |raws| && FramesRight(raws[..i], before, frames) && Fits(raws[i], f)
    requires images == if f.path in before then before else before + [f.path]
    requires image < |images| && images[image] == f.path
    ensures FramesRight(raws[..i + 1], images, frames + [f.(image := image)])
  {
    var longer := frames + [f.(image := image)];
    assert raws[..i + 1][..i] == raws[..i] && f.path == raws[i].path;
    assert images == Interned(raws[..i + 1]);
    hide Interned;
    assert FrameRight(raws[i], images, longer[i]);
    hide Fits;
    forall k | 0 <= k < i ensures FrameRight(raws[k], images, longer[k]) {
      assert FrameRight(raws[..i][k], before, frames[k]) && images[frames[k].image] == before[frames[k].image];
    }
    hide FrameRight;
  }

  ghost predicate GroupsRight(raws: seq<Raw>, groups: map<Bytes, seq<nat>>, n: nat)
    requires n <= |raws|
  {
    && (forall k :: 0 <= k < n ==> raws[k].name in groups)
    && (forall x :: x in groups ==> groups[x] != [] && groups[x] == IndicesOf(raws, x, n))
  }

  method GroupByName(raws: seq<Raw>) returns (groups: map<Bytes, seq<nat>>)
    ensures GroupsRight(raws, groups, |raws|)
  {
    groups := map[];
    for i := 0 to |raws|
      invariant GroupsRight(raws, groups, i)
    {
      var name := raws[i].name;
      IndicesAre(raws, name, i);
      var group := if name in groups then groups[name] else [];
      if name !in groups {
        NoneYet(raws, groups, name, i);
      }
      groups := groups[name := group + [i]];
    }
  }

  lemma NoneYet(raws: seq<Raw>, groups: map<Bytes, seq<nat>>, name: Bytes, i: nat)
    requires i <= |raws| && GroupsRight(raws, groups, i) && name !in groups
    ensures IndicesOf(raws, name, i) == []
  {
    IndicesAre(raws, name, i);
    FirstMember(IndicesOf(raws, name, i));
  }

  // The keys of a hash map, in whatever order it has them.
  method AnyOrder(groups: map<Bytes, seq<nat>>) returns (names: seq<Bytes>)
    ensures NoRepeats(names) && forall x :: x in names <==> x in groups
  {
    names := [];
    var left := groups.Keys;
    while left != {}
      invariant NoRepeats(names) && left <= groups.Keys
      invariant forall x :: x in names <==> x in groups.Keys - left
    {
      var x :| x in left;
      assert x !in names;
      left := left - {x};
      names := names + [x];
    }
  }

  method CheckNeighbours(raws: seq<Raw>, indices: seq<nat>) returns (ok: bool)
    requires InRange(raws, indices) && indices != []
    ensures ok <==> NeighboursGood(raws, indices, |indices|)
  {
    for i := 1 to |indices|
      invariant NeighboursGood(raws, indices, i)
    {
      var previous, current := raws[indices[i - 1]], raws[indices[i]];
      if previous.frame == current.frame {
        return false;
      }
      if previous.tile != current.tile {
        return false;
      }
    }
    ok := true;
  }

  method BuildAnim(raws: seq<Raw>, name: Bytes, group: seq<nat>) returns (a: Option<Anim>)
    requires group != [] && group == IndicesOf(raws, name, |raws|)
    ensures a.Some? <==> NameGood(raws, name)
    ensures a.Some? ==> a.value.name == name && AnimRight(raws, a.value)
  {
    GroupLists(raws, name, group);
    var indices := SortedByFrame(raws, group);
    NeighboursSuffice(raws, indices, name);
    hide *;
    var good := CheckNeighbours(raws, indices);
    if !good {
      return None;
    }
    var id := Hash(name);
    a := Some(Anim(id, name, raws[indices[0]].tile, indices));
  }

  // The animations of the first names, indexed both ways.
  ghost predicate Built(
    raws: seq<Raw>, names: seq<Bytes>, anims: seq<Anim>, byName: map<Bytes, nat>, byId: map<nat, nat>)
  {
    && NamesOf(anims) == names && (forall k :: 0 <= k < |anims| ==> AnimRight(raws, anims[k]))
    && NamesRight(anims, byName) && IdsRight(anims, byId)
    && (forall j, k :: 0 <= j < k < |names| ==> Id(names[j]) != Id(names[k]))
  }

  lemma NamesHaveIds(raws: seq<Raw>, names: seq<Bytes>, anims: seq<Anim>, byName: map<Bytes, nat>, byId: map<nat, nat>)
    requires Built(raws, names, anims, byName, byId)
    ensures forall n :: n in byName ==> Id(n) in byId
  {
  }

  lemma AnimAppends(
    raws: seq<Raw>, names: seq<Bytes>, anims: seq<Anim>, byName: map<Bytes, nat>, byId: map<nat, nat>, a: Anim)
    requires Built(raws, names, anims, byName, byId) && AnimRight(raws, a) && a.id !in byId
    ensures Built(raws, names + [a.name], anims + [a], byName[a.name := |anims|], byId[a.id := |anims|])
  {
    hide Id, StrictlyOrdered;
    forall j | 0 <= j < |names| ensures Id(names[j]) != Id(a.name) {
      assert anims[j].name == NamesOf(anims)[j] && AnimRight(raws, anims[j]);
    }
    assert a.name in byName ==> Id(a.name) in byId by { NamesHaveIds(raws, names, anims, byName, byId); }
    assert NamesOf(anims + [a]) == names + [a.name];
  }

  // A name whose id is taken collides with a frame of another name.
  lemma TakenId(
    raws: seq<Raw>, names: seq<Bytes>, anims: seq<Anim>, byName: map<Bytes, nat>, byId: map<nat, nat>, a: Anim)
    requires Built(raws, names, anims, byName, byId) && AnimRight(raws, a) && a.id in byId
    requires a.name !in names
    ensures byId[a.id] < |anims| && anims[byId[a.id]].name != a.name && !NoCollision(raws)
  {
    hide StrictlyOrdered, Id;
    var b := anims[byId[a.id]];
    assert AnimRight(raws, b) && b.name == NamesOf(anims)[byId[a.id]];
    var i, j := a.indices[0], b.indices[0];
    assert i in a.indices && j in b.indices;
  }

  lemma AcceptableSays(raws: seq<Raw>)
    ensures Acceptable(raws) <==>
            && (forall i :: 0 <= i < |raws| ==>
                  && raws[i].path != [] && raws[i].name != [] && raws[i].frame >= 0
                  && raws[i].aabb.w > 0 && raws[i].aabb.h > 0)
            && (forall i, j :: 0 <= i < j < |raws| && raws[i].name == raws[j].name ==>
                  raws[i].frame != raws[j].frame && raws[i].tile == raws[j].tile)
            && (forall i, j :: 0 <= i < j < |raws| && raws[i].name != raws[j].name ==>
                  Id(raws[i].name) != Id(raws[j].name))
  {
    hide Id;
    if Acceptable(raws) {
      forall i, j | 0 <= i < j < |raws| && raws[i].name == raws[j].name
        ensures raws[i].frame != raws[j].frame && raws[i].tile == raws[j].tile
      {
        assert NameGood(raws, raws[i].name);
      }
    }
  }

  // What a database says of a frame, and of two frames of one animation.
  lemma FrameSays(raws: seq<Raw>, db: Db, i: nat)
    requires DbRight(raws, db) && i < |raws|
    ensures var r, f := raws[i], db.frames[i];
            && f.animId == Id(r.name) && f.image < |db.images| && db.images[f.image] == f.path == r.path
            && f.name == r.name && f.frame == r.frame && f.tile == r.tile && f.sample == r.aabb
            && (if r.duration > 0 then f.duration == r.duration else f.duration == 1)
            && (if r.pbox.Some? then f.pbox == r.pbox.value else f.pbox == Rect(0, 0, r.aabb.w, r.aabb.h))
            && (if r.cbox.Some? then f.cbox == r.cbox.value else f.cbox == f.pbox)
  {
    hide Id, AnimsRight, NamesRight, IdsRight, Interned;
    assert FrameRight(raws[i], db.images, db.frames[i]);
  }

  lemma AnimSays(raws: seq<Raw>, db: Db, a: nat, j: nat, k: nat)
    requires DbRight(raws, db) && a < |db.anims| && j < k < |db.anims[a].indices|
    ensures var s := db.anims[a].indices;
            && s[j] < |raws| && s[k] < |raws| && raws[s[j]].frame < raws[s[k]].frame
            && raws[s[j]].name == raws[s[k]].name == db.anims[a].name
  {
    hide Id, FramesRight, NamesRight, IdsRight;
    assert AnimRight(raws, db.anims[a]);
    assert db.anims[a].indices[j] in db.anims[a].indices && db.anims[a].indices[k] in db.anims[a].indices;
  }

  /**
   The database, or nothing: a frame without a path, a name, a number or an area, two frames of
   a name with one number or with different tile flags, or two names with one hash.
   */
  method FromRaw(raws: seq<Raw>) returns (result: Option<Db>)
    ensures result.Some? <==> Acceptable(raws)
    ensures result.Some? <==>
            && (forall i :: 0 <= i < |raws| ==>
                  && raws[i].path != [] && raws[i].name != [] && raws[i].frame >= 0
                  && raws[i].aabb.w > 0 && raws[i].aabb.h > 0)
            && (forall i, j :: 0 <= i < j < |raws| && raws[i].name == raws[j].name ==>
                  raws[i].frame != raws[j].frame && raws[i].tile == raws[j].tile)
            && (forall i, j :: 0 <= i < j < |raws| && raws[i].name != raws[j].name ==>
                  Id(raws[i].name) != Id(raws[j].name))
    ensures result.Some? ==> DbRight(raws, result.value) && |result.value.frames| == |raws|
  {
    AcceptableSays(raws);
    hide Acceptable;
    var ok, images, frames := ConvertAll(raws);
    if !ok {
      return None;
    }
    var groups := GroupByName(raws);
    var names := AnyOrder(groups);
    SortsAscending(names);
    names := SortedBytes(names);
    hide ValidRaw, FramesRight;
    var built, anims, byName, byId := BuildAll(raws, groups, names);
    if !built {
      return None;
    }
    AllBuilt(raws, groups, names, anims, byName, byId);
    result := Some(Db(images, frames, anims, byName, byId));
  }

  lemma SortsAscending(names: seq<Bytes>)
    requires NoRepeats(names)
    ensures Ascending(SortedBytes(names)) && forall x :: x in SortedBytes(names) <==> x in names
  {
    BytesInOrder();
    hide Less, Sorted;
    SortSorts(BYTE_ORDER, names);
    SortedMembers(BYTE_ORDER, names);
    var sorted := SortedBytes(names);
    forall i, j | 0 <= i < j < |sorted| ensures Less(sorted[i], sorted[j]) {
      LessTotal(sorted[i], sorted[j]);
      assert !BYTE_ORDER(sorted[j], sorted[i]);
    }
  }

  method BuildAll(raws: seq<Raw>, groups: map<Bytes, seq<nat>>, names: seq<Bytes>)
    returns (ok: bool, anims: seq<Anim>, byName: map<Bytes, nat>, byId: map<nat, nat>)
    requires GroupsRight(raws, groups, |raws|) && Ascending(names) && forall x :: x in names <==> x in groups
    ensures !ok ==> !Acceptable(raws)
    ensures ok ==> Built(raws, names, anims, byName, byId) && forall x :: x in names ==> NameGood(raws, x)
  {
    anims, byName, byId := [], map[], map[];
    hide Ascending, NameGood, AnimRight, Id, NoCollision, IndicesOf;
    assert Built(raws, [], anims, byName, byId);
    hide Built, NameGood;
    for k := 0 to |names|
      invariant Built(raws, names[..k], anims, byName, byId)
      invariant forall x :: x in names[..k] ==> NameGood(raws, x)
    {
      var name := names[k];
      assert name in names && names[..k + 1] == names[..k] + [name];
      var anim := BuildAnim(raws, name, groups[name]);
      if anim.None? {
        NotGood(raws, groups, name);
        return false, anims, byName, byId;
      }
      NotBefore(names, k);
      if anim.value.id in byId {
        TakenId(raws, names[..k], anims, byName, byId, anim.value);
        if anims[byId[anim.value.id]].name != name {
          return false, anims, byName, byId;
        }
      }
      AnimAppends(raws, names[..k], anims, byName, byId, anim.value);
      byName := byName[name := |anims|];
      byId := byId[anim.value.id := |anims|];
      anims := anims + [anim.value];
    }
    assert names[..|names|] == names;
    ok := true;
  }

  lemma NotBefore(names: seq<Bytes>, k: nat)
    requires Ascending(names) && k < |names|
    ensures names[k] !in names[..k]
  {
    LessTotal(names[k], names[k]);
  }

  lemma NotGood(raws: seq<Raw>, groups: map<Bytes, seq<nat>>, name: Bytes)
    requires GroupsRight(raws, groups, |raws|) && name in groups && !NameGood(raws, name)
    ensures !Acceptable(raws)
  {
  }

  lemma AllBuilt(
    raws: seq<Raw>, groups: map<Bytes, seq<nat>>, names: seq<Bytes>, anims: seq<Anim>,
    byName: map<Bytes, nat>, byId: map<nat, nat>)
    requires GroupsRight(raws, groups, |raws|) && Ascending(names) && forall x :: x in names <==> x in groups
    requires Built(raws, names, anims, byName, byId) && forall x :: x in names ==> NameGood(raws, x)
    ensures (forall i :: 0 <= i < |raws| ==> NameGood(raws, raws[i].name)) && NoCollision(raws)
    ensures AnimsRight(raws, anims) && forall i :: 0 <= i < |raws| ==> raws[i].name in byName
  {
    hide NameGood, Ascending, AnimRight, Id;
    forall i | 0 <= i < |raws| ensures raws[i].name in byName {
      var k :| 0 <= k < |names| && names[k] == raws[i].name;
      assert anims[k].name == NamesOf(anims)[k];
    }
    forall i, j | 0 <= i < |raws| && 0 <= j < |raws| && Id(raws[i].name) == Id(raws[j].name)
      ensures raws[i].name == raws[j].name
    {
      var k :| 0 <= k < |names| && names[k] == raws[i].name;
      var l :| 0 <= l < |names| && names[l] == raws[j].name;
    }
  }

  // ----- lookups -----

  // The first animation of a name, or of an id, by scanning.
  function ScanNames(anims: seq<Anim>, name: Bytes): Option<Anim> {
    if anims == [] then None else if anims[0].name == name then Some(anims[0]) else ScanNames(anims[1..], name)
  }

  function ScanIds(anims: seq<Anim>, id: nat): Option<Anim> {
    if anims == [] then None else if anims[0].id == id then Some(anims[0]) else ScanIds(anims[1..], id)
  }

  lemma {:induction false} ScanNamesIs(anims: seq<Anim>, name: Bytes)
    ensures ScanNames(anims, name).None? <==> forall k :: 0 <= k < |anims| ==> anims[k].name != name
    ensures ScanNames(anims, name).Some? ==>
            ScanNames(anims, name).value.name == name && ScanNames(anims, name).value in anims
  {
    if anims != [] && anims[0].name != name {
      ScanNamesIs(anims[1..], name);
      assert forall k :: 0 < k < |anims| ==> anims[k] == anims[1..][k - 1];
    }
  }

  lemma {:induction false} ScanIdsIs(anims: seq<Anim>, id: nat)
    ensures ScanIds(anims, id).None? <==> forall k :: 0 <= k < |anims| ==> anims[k].id != id
    ensures ScanIds(anims, id).Some? ==> ScanIds(anims, id).value.id == id && ScanIds(anims, id).value in anims
  {
    if anims != [] && anims[0].id != id {
      ScanIdsIs(anims[1..], id);
      assert forall k :: 0 < k < |anims| ==> anims[k] == anims[1..][k - 1];
    }
  }

  lemma ScanFinds(anims: seq<Anim>, name: Bytes, k: nat)
    requires Ascending(NamesOf(anims)) && k < |anims| && anims[k].name == name
    ensures ScanNames(anims, name) == Some(anims[k])
  {
    ScanNamesIs(anims, name);
    hide ScanNames, Ascending;
    var j :| 0 <= j < |anims| && anims[j] == ScanNames(anims, name).value;
    NamesDiffer(anims, j, k);
  }

  /** Looking up a name is scanning for it. */
  method FindAnim(ghost raws: seq<Raw>, db: Db, name: Bytes) returns (a: Option<Anim>)
    requires DbRight(raws, db)
    ensures a == ScanNames(db.anims, name)
    ensures a.Some? <==> exists i :: 0 <= i < |raws| && raws[i].name == name
  {
    ScanNamesIs(db.anims, name);
    NamesAre(raws, db, name);
    if name !in db.byName {
      return None;
    }
    ScanFinds(db.anims, name, db.byName[name]);
    assert NamesOf(db.anims)[db.byName[name]] == name;
    a := Some(db.anims[db.byName[name]]);
    hide *;
  }

  lemma ScanIdFinds(raws: seq<Raw>, anims: seq<Anim>, id: nat, k: nat)
    requires AnimsRight(raws, anims) && NoCollision(raws) && k < |anims| && anims[k].id == id
    ensures ScanIds(anims, id) == Some(anims[k])
  {
    ScanIdsIs(anims, id);
    hide ScanIds, AnimsRight, NoCollision;
    var j :| 0 <= j < |anims| && anims[j] == ScanIds(anims, id).value;
    IdsDiffer(raws, anims, j, k);
  }

  /** Looking up an id is scanning for it. */
  method FindAnimById(ghost raws: seq<Raw>, db: Db, id: nat) returns (a: Option<Anim>)
    requires DbRight(raws, db) && NoCollision(raws)
    ensures a == ScanIds(db.anims, id)
  {
    ScanIdsIs(db.anims, id);
    if id !in db.byId {
      return None;
    }
    ScanIdFinds(raws, db.anims, id, db.byId[id]);
    a := Some(db.anims[db.byId[id]]);
    hide *;
  }

  /**
   Looking up a name and looking up its hash agree exactly when the name exists or its hash is
   nobody's: a name that does not exist may hash to an animation that does.
   */
  lemma LookupsAgree(raws: seq<Raw>, db: Db, name: Bytes)
    requires DbRight(raws, db) && NoCollision(raws)
    ensures ScanNames(db.anims, name) == ScanIds(db.anims, Id(name)) <==> (name in db.byName || Id(name) !in db.byId)
  {
    if name in db.byName {
      var j := db.byName[name];
      assert AnimRight(raws, db.anims[j]);
      ScanFinds(db.anims, name, j);
      ScanIdFinds(raws, db.anims, Id(name), j);
      hide *;
    } else {
      NamesAre(raws, db, name);
      ScanNamesIs(db.anims, name);
      ScanIdsIs(db.anims, Id(name));
      hide ScanNames, ScanIds, Id, FramesRight, AnimsRight;
    }
  }

  /** The n-th frame of a name, in frame order. */
  method FindFrame(ghost raws: seq<Raw>, db: Db, name: Bytes, n: nat) returns (f: Option<Frame>)
    requires DbRight(raws, db)
    ensures f.Some? <==> n < |Numbered(raws, name)|
    ensures f.Some? ==> f.value in db.frames && f.value.name == name && |Below(raws, name, f.value.frame)| == n
  {
    var anim := FindAnim(raws, db, name);
    ScanNamesIs(db.anims, name);
    if anim.None? {
      assert Numbered(raws, name) == {};
      return None;
    }
    assert AnimRight(raws, anim.value);
    CountNumbered(raws, name, anim.value.indices);
    if n >= |anim.value.indices| {
      return None;
    }
    CountBelow(raws, name, anim.value.indices, n);
    f := Some(db.frames[anim.value.indices[n]]);
    assert Fits(raws[anim.value.indices[n]], f.value);
    hide Id, Ascending, StrictlyOrdered, NamesRight, IdsRight, ScanNames, Interned, Numbered, Below;
    assert anim.value.indices[n] in anim.value.indices;
  }

  ghost function Numbered(raws: seq<Raw>, name: Bytes): set<nat> {
    set i: nat | i < |raws| && raws[i].name == name
  }

  ghost function Below(raws: seq<Raw>, name: Bytes, frame: int): set<nat> {
    set i: nat | i < |raws| && raws[i].name == name && raws[i].frame < frame
  }

  lemma CountNumbered(raws: seq<Raw>, name: Bytes, s: seq<nat>)
    requires StrictlyOrdered(raws, s) && forall i: nat :: i in s <==> i < |raws| && raws[i].name == name
    ensures |Numbered(raws, name)| == |s|
  {
    assert NoRepeats(s);
    assert SetOf(s) == Numbered(raws, name);
  }

  lemma CountBelow(raws: seq<Raw>, name: Bytes, s: seq<nat>, n: nat)
    requires StrictlyOrdered(raws, s) && (forall i: nat :: i in s <==> i < |raws| && raws[i].name == name) && n < |s|
    ensures s[n] < |raws| && |Below(raws, name, raws[s[n]].frame)| == n
  {
    assert NoRepeats(s[..n]);
    forall i: nat ensures i in SetOf(s[..n]) <==> i in Below(raws, name, raws[s[n]].frame) {
      if i in Below(raws, name, raws[s[n]].frame) {
        var k :| 0 <= k < |s| && s[k] == i;
        assert k < n;
      }
    }
    hide *;
    assert SetOf(s[..n]) == Below(raws, name, raws[s[n]].frame);
  }
}

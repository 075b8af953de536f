/** Polygon deletion with optional reclamation (PolygonRemover): the
    selected polygons are removed in descending index order; then, when
    asked, the vertex, texture-vertex and normal lists are compacted to the
    elements that the remaining polygons use or that were unused before,
    and every remaining polygon is remapped through the old-to-new maps. */
module PolygonRemoval {
  import opened Wrappers
  import opened Mesh
  import V2 = Vector2
  import V3 = Vector3
  import Models

  const NULL_MODEL := "Модель не может быть null"

  // ------------------------------------------------------------ usage

  datatype Kind = Vertex | Texture | Normal

  /** The index list of a polygon that collectFromPolygon adds; a null
      texture or normal list adds nothing. */
  function ListOf(p: Polygon, kind: Kind): seq<int>
  {
    match kind
    case Vertex => p.vertexIndices
    case Texture => p.Textures()
    case Normal => p.Normals()
  }

  predicate Occurs(ps: seq<Polygon>, kind: Kind, i: int)
  {
    exists k, j :: 0 <= k < |ps| && 0 <= j < |ListOf(ps[k], kind)| && ListOf(ps[k], kind)[j] == i
  }

  /** The indices of one kind that the polygons use. */
  function Used(ps: seq<Polygon>, kind: Kind): (r: set<int>)
    ensures forall k, j :: 0 <= k < |ps| && 0 <= j < |ListOf(ps[k], kind)| ==> ListOf(ps[k], kind)[j] in r
    ensures forall i :: i in r ==> Occurs(ps, kind, i)
  {
    if |ps| == 0 then {}
    else
      var front := ps[..|ps| - 1];
      var last := ListOf(ps[|ps| - 1], kind);
      var r := Used(front, kind) + (set j | 0 <= j < |last| :: last[j]);
      assert forall i :: i in Used(front, kind) ==> Occurs(ps, kind, i) by {
        forall i | i in Used(front, kind) ensures Occurs(ps, kind, i) {
          var k, j :| 0 <= k < |front| && 0 <= j < |ListOf(front[k], kind)| && ListOf(front[k], kind)[j] == i;
          assert ps[k] == front[k];
        }
      }
      r
  }

  /** The positions below count that nothing uses. */
  function Orphans(count: nat, used: set<int>): (r: set<int>)
    ensures forall i :: i in r <==> 0 <= i < count && i !in used
  {
    set i | 0 <= i < count && i !in used
  }

  /** ElementUsageInfo: the used and the orphaned indices of each kind. */
  datatype UsageInfo = UsageInfo(
    usedVertices: set<int>, usedTextures: set<int>, usedNormals: set<int>,
    orphanedVertices: set<int>, orphanedTextures: set<int>, orphanedNormals: set<int>)

  function NoUsage(): UsageInfo
  {
    UsageInfo({}, {}, {}, {}, {}, {})
  }

  /** findOriginallyOrphanedElements: the usage of all polygons, and the
      unused positions of each list; a null list has no orphans. */
  function OriginalUsage(vertexCount: nat, textures: Option<seq<V2.Vector2f>>, normals: Option<seq<V3.Vector3f>>, ps: seq<Polygon>): UsageInfo
  {
    var uv, ut, un := Used(ps, Vertex), Used(ps, Texture), Used(ps, Normal);
    UsageInfo(uv, ut, un,
              Orphans(vertexCount, uv),
              if textures.Some? then Orphans(|textures.value|, ut) else {},
              if normals.Some? then Orphans(|normals.value|, un) else {})
  }

  /** collectFromPolygon over every polygon, by addAll. */
  method CollectUsage(ps: seq<Polygon>) returns (info: UsageInfo)
    ensures info == UsageInfo(Used(ps, Vertex), Used(ps, Texture), Used(ps, Normal), {}, {}, {})
  {
    info := NoUsage();
    for i := 0 to |ps|
      invariant info == UsageInfo(Used(ps[..i], Vertex), Used(ps[..i], Texture), Used(ps[..i], Normal), {}, {}, {})
    {
      assert ps[..i + 1][..i] == ps[..i];
      var p := ps[i];
      info := info.(usedVertices := info.usedVertices + (set j | 0 <= j < |p.vertexIndices| :: p.vertexIndices[j]));
      info := info.(usedTextures := info.usedTextures + (set j | 0 <= j < |p.Textures()| :: p.Textures()[j]));
      info := info.(usedNormals := info.usedNormals + (set j | 0 <= j < |p.Normals()| :: p.Normals()[j]));
    }
    assert ps[..|ps|] == ps;
  }

  /** findOrphanedElements: every position of the list that is not used. */
  method FindOrphanedElements(count: nat, used: set<int>) returns (orphaned: set<int>)
    ensures orphaned == Orphans(count, used)
  {
    orphaned := {};
    for i := 0 to count
      invariant orphaned == set j | 0 <= j < i && j !in used
    {
      if i !in used {
        orphaned := orphaned + {i};
      }
    }
  }

  method FindOriginallyOrphanedElements(m: Models.Model) returns (info: UsageInfo)
    ensures info == OriginalUsage(|m.vertices|, m.textureVertices, m.normals, m.polygons)
  {
    info := CollectUsage(m.polygons);
    var ov := FindOrphanedElements(|m.vertices|, info.usedVertices);
    info := info.(orphanedVertices := ov);
    if m.textureVertices.Some? {
      var ot := FindOrphanedElements(|m.textureVertices.value|, info.usedTextures);
      info := info.(orphanedTextures := ot);
    }
    if m.normals.Some? {
      var on := FindOrphanedElements(|m.normals.value|, info.usedNormals);
      info := info.(orphanedNormals := on);
    }
  }

  // ------------------------------------------------------------ deletion

  predicate NonIncreasing(xs: seq<int>)
  {
    forall i, j :: 0 <= i < j < |xs| ==> xs[i] >= xs[j]
  }

  /** Collections.reverseOrder() sorting, by insertion. */
  function Insert(x: int, xs: seq<int>): (r: seq<int>)
    requires NonIncreasing(xs)
    ensures NonIncreasing(r)
    ensures multiset(r) == multiset(xs) + multiset{x}
  {
    if |xs| == 0 || x >= xs[0] then [x] + xs
    else
      var t := Insert(x, xs[1..]);
      InsertBelowHead(x, xs, t);
      [xs[0]] + t
  }

  /** Inserting below the head keeps the head first: everything in the
      tail after insertion is at most the head. */
  lemma InsertBelowHead(x: int, xs: seq<int>, t: seq<int>)
    requires NonIncreasing(xs) && |xs| > 0 && x < xs[0]
    requires NonIncreasing(t) && multiset(t) == multiset(xs[1..]) + multiset{x}
    ensures NonIncreasing([xs[0]] + t)
    ensures multiset([xs[0]] + t) == multiset(xs) + multiset{x}
  {
    assert xs == [xs[0]] + xs[1..];
    forall k | 0 <= k < |t|
      ensures t[k] <= xs[0]
    {
      assert t[k] in multiset(t);
      assert t[k] == x || t[k] in multiset(xs[1..]);
    }
    var r := [xs[0]] + t;
    forall i, j | 0 <= i < j < |r|
      ensures r[i] >= r[j]
    {
      if i > 0 {
        assert r[i] == t[i - 1] && r[j] == t[j - 1];
      }
    }
  }

  function SortDescending(xs: seq<int>): (r: seq<int>)
    ensures NonIncreasing(r)
    ensures multiset(r) == multiset(xs)
  {
    if |xs| == 0 then []
    else
      assert xs == [xs[0]] + xs[1..];
      Insert(xs[0], SortDescending(xs[1..]))
  }

  function RemoveAt<T>(xs: seq<T>, k: nat): (r: seq<T>)
    requires k < |xs|
    ensures |r| == |xs| - 1
  {
    xs[..k] + xs[k + 1..]
  }

  /** The loop of removeSelectedPolygons: each index in turn, removed when
      it is in range of the list as it is at that moment. */
  function RemoveInOrder<T>(ps: seq<T>, order: seq<int>): seq<T>
  {
    if |order| == 0 then ps
    else if 0 <= order[0] < |ps| then RemoveInOrder(RemoveAt(ps, order[0]), order[1..])
    else RemoveInOrder(ps, order[1..])
  }

  /** removeSelectedPolygons: a null or empty list removes nothing. */
  function RemoveSelected<T>(ps: seq<T>, indices: Option<seq<int>>): seq<T>
  {
    if indices.None? || |indices.value| == 0 then ps else RemoveInOrder(ps, SortDescending(indices.value))
  }

  method RemoveSelectedPolygons(m: Models.Model, indices: Option<seq<int>>)
    modifies m
    ensures m.polygons == RemoveSelected(old(m.polygons), indices)
    ensures m.vertices == old(m.vertices) && m.textureVertices == old(m.textureVertices) && m.normals == old(m.normals)
    ensures m.originalVertices == old(m.originalVertices) && m.transformation == old(m.transformation) && m.name == old(m.name)
    ensures m.translation == old(m.translation) && m.rotation == old(m.rotation) && m.scale == old(m.scale)
  {
    if indices.None? || |indices.value| == 0 {
      return;
    }
    var sorted := SortDescending(indices.value);
    var polygons := m.polygons;
    for i := 0 to |sorted|
      invariant RemoveInOrder(polygons, sorted[i..]) == RemoveSelected(old(m.polygons), indices)
    {
      assert sorted[i..][1..] == sorted[i + 1..];
      var index := sorted[i];
      if 0 <= index < |polygons| {
        polygons := RemoveAt(polygons, index);
      }
    }
    m.SetPolygons(polygons);
  }

  /** The polygons left when the positions in `removed` are deleted, in
      their original order. */
  function Surviving<T>(ps: seq<T>, removed: set<int>): (r: seq<T>)
    ensures |r| <= |ps|
  {
    if |ps| == 0 then []
    else Surviving(ps[..|ps| - 1], removed) + (if |ps| - 1 in removed then [] else [ps[|ps| - 1]])
  }

  lemma {:induction false} SurvivingTail<T>(a: seq<T>, b: seq<T>, removed: set<int>)
    requires forall i :: i in removed ==> i < |a|
    ensures Surviving(a + b, removed) == Surviving(a, removed) + b
    decreases |b|
  {
    if |b| == 0 {
      assert a + b == a;
    } else {
      var b' := b[..|b| - 1];
      assert (a + b)[..|a + b| - 1] == a + b';
      SurvivingTail(a, b', removed);
      assert b == b' + [b[|b| - 1]];
    }
  }

  lemma {:induction false} SurvivingSameBelow<T>(a: seq<T>, s: set<int>, t: set<int>)
    requires forall i :: 0 <= i < |a| ==> (i in s <==> i in t)
    ensures Surviving(a, s) == Surviving(a, t)
    decreases |a|
  {
    if |a| > 0 {
      SurvivingSameBelow(a[..|a| - 1], s, t);
    }
  }

  /** Removing the largest selected position first and the smaller ones
      after it deletes exactly the selected positions. */
  lemma RemoveAtSurviving<T>(ps: seq<T>, k: nat, rest: set<int>)
    requires k < |ps|
    requires forall i :: i in rest ==> i < k
    ensures Surviving(RemoveAt(ps, k), rest) == Surviving(ps, rest + {k})
  {
    var below, upto, above := ps[..k], ps[..k + 1], ps[k + 1..];
    SurvivingTail(below, above, rest);
    assert ps == upto + above;
    SurvivingTail(upto, above, rest + {k});
    assert upto[..|upto| - 1] == below;
    assert Surviving(upto, rest + {k}) == Surviving(below, rest + {k});
    SurvivingSameBelow(below, rest, rest + {k});
    calc {
      Surviving(RemoveAt(ps, k), rest);
      Surviving(below + above, rest);
      Surviving(below, rest) + above;
      Surviving(upto, rest + {k}) + above;
      Surviving(ps, rest + {k});
    }
  }

  predicate StrictlyDecreasing(xs: seq<int>)
  {
    forall i, j :: 0 <= i < j < |xs| ==> xs[i] > xs[j]
  }

  function Elements(xs: seq<int>): set<int>
  {
    set i | 0 <= i < |xs| :: xs[i]
  }

  /** The deletion loop over strictly decreasing positions deletes exactly
      those positions that are in range. */
  lemma {:induction false} RemoveInOrderSurviving<T>(ps: seq<T>, order: seq<int>)
    requires StrictlyDecreasing(order)
    ensures RemoveInOrder(ps, order) == Surviving(ps, Elements(order))
    decreases |order|
  {
    if |order| == 0 {
      SurvivingSameBelow(ps, {}, Elements(order));
      SurvivingNone(ps);
    } else {
      var k, rest := order[0], order[1..];
      assert StrictlyDecreasing(rest);
      assert Elements(order) == Elements(rest) + {k} by {
        forall x | x in Elements(order) ensures x in Elements(rest) + {k} {
          var i :| 0 <= i < |order| && order[i] == x;
          if i > 0 { assert rest[i - 1] == x; }
        }
        forall x | x in Elements(rest) ensures x in Elements(order) {
          var i :| 0 <= i < |rest| && rest[i] == x;
          assert order[i + 1] == x;
        }
      }
      assert forall x :: x in Elements(rest) ==> x < k by {
        forall x | x in Elements(rest) ensures x < k {
          var i :| 0 <= i < |rest| && rest[i] == x;
          assert order[i + 1] == x;
        }
      }
      if 0 <= k < |ps| {
        RemoveInOrderSurviving(RemoveAt(ps, k), rest);
        RemoveAtSurviving(ps, k, Elements(rest));
      } else {
        RemoveInOrderSurviving(ps, rest);
        SurvivingSameBelow(ps, Elements(rest), Elements(rest) + {k});
      }
    }
  }

  lemma {:induction false} SurvivingNone<T>(ps: seq<T>)
    ensures Surviving(ps, {}) == ps
    decreases |ps|
  {
    if |ps| > 0 {
      SurvivingNone(ps[..|ps| - 1]);
    }
  }

  predicate Distinct(xs: seq<int>)
  {
    forall i, j :: 0 <= i < j < |xs| ==> xs[i] != xs[j]
  }

  lemma {:induction false} DistinctCounts(xs: seq<int>, v: int)
    requires Distinct(xs)
    ensures multiset(xs)[v] <= 1
    decreases |xs|
  {
    if |xs| > 0 {
      assert xs == [xs[0]] + xs[1..];
      DistinctCounts(xs[1..], v);
      if xs[0] == v {
        assert v !in xs[1..];
      }
    }
  }

  lemma SortedDistinctIsStrict(xs: seq<int>)
    requires Distinct(xs)
    ensures StrictlyDecreasing(SortDescending(xs))
  {
    var r := SortDescending(xs);
    forall i, j | 0 <= i < j < |r| ensures r[i] > r[j] {
      if r[i] == r[j] {
        TwiceCounted(r, i, j);
        DistinctCounts(xs, r[i]);
      }
    }
  }

  lemma TwiceCounted(r: seq<int>, i: nat, j: nat)
    requires i < j < |r| && r[i] == r[j]
    ensures multiset(r)[r[i]] >= 2
  {
    assert r == r[..j] + r[j..];
    assert r[..j][i] == r[i];
    assert r[j..][0] == r[j];
    assert multiset(r) == multiset(r[..j]) + multiset(r[j..]);
  }

  lemma ElementsOfSorted(xs: seq<int>)
    ensures Elements(SortDescending(xs)) == Elements(xs)
  {
    var r := SortDescending(xs);
    forall x ensures x in Elements(r) <==> x in Elements(xs) {
      assert x in Elements(r) <==> x in multiset(r);
      assert x in Elements(xs) <==> x in multiset(xs);
    }
  }

  /** With distinct indices, deletion removes exactly the polygons at the
      selected positions in range, and the others keep their order. */
  lemma RemoveSelectedDistinct<T>(ps: seq<T>, indices: seq<int>)
    requires Distinct(indices)
    ensures RemoveSelected(ps, Some(indices)) == Surviving(ps, Elements(indices))
  {
    if |indices| == 0 {
      SurvivingNone(ps);
      SurvivingSameBelow(ps, {}, Elements(indices));
    } else {
      SortedDistinctIsStrict(indices);
      RemoveInOrderSurviving(ps, SortDescending(indices));
      ElementsOfSorted(indices);
    }
  }

  /** A repeated index is removed again from the shorter list: [1, 1]
      deletes the polygons at positions 1 and 2. */
  lemma DuplicateIndexRemovesTwo<T>(a: T, b: T, c: T)
    ensures RemoveSelected([a, b, c], Some([1, 1])) == [a]
  {
    assert [1, 1][1..] == [1];
    assert [1][1..] == [];
    assert SortDescending([1]) == [1];
    assert SortDescending([1, 1]) == Insert(1, [1]) == [1, 1];
    assert RemoveAt([a, b, c], 1) == [a, c];
    assert RemoveAt([a, c], 1) == [a];
    assert RemoveInOrder([a, b, c], [1, 1]) == RemoveInOrder([a, c], [1]) == RemoveInOrder([a], []);
  }

  // ------------------------------------------------------------ compaction

  /** The elements at the kept positions, in their original order. */
  function Kept<T>(xs: seq<T>, keep: set<int>): (r: seq<T>)
    ensures |r| == Count(|xs|, keep)
  {
    if |xs| == 0 then [] else Kept(xs[..|xs| - 1], keep) + (if |xs| - 1 in keep then [xs[|xs| - 1]] else [])
  }

  /** The number of kept positions below n. */
  function Count(n: nat, keep: set<int>): nat
  {
    if n == 0 then 0 else Count(n - 1, keep) + (if n - 1 in keep then 1 else 0)
  }

  /** The map rebuildElementList returns: the new position of a kept
      element, -1 for the others. */
  function IndexMap(n: nat, keep: set<int>): (r: seq<int>)
    ensures |r| == n
  {
    seq(n, (i: nat) => if i in keep then Count(i, keep) as int else -1)
  }

  lemma {:induction false} CountMonotone(i: nat, j: nat, keep: set<int>)
    requires i <= j
    ensures Count(i, keep) <= Count(j, keep)
    ensures i < j && i in keep ==> Count(i, keep) < Count(j, keep)
    decreases j - i
  {
    if i < j {
      CountMonotone(i, j - 1, keep);
      if i == j - 1 {
      }
    }
  }

  lemma {:induction false} KeptPrefix<T>(xs: seq<T>, n: nat, keep: set<int>)
    requires n <= |xs|
    ensures Kept(xs[..n], keep) <= Kept(xs, keep)
    decreases |xs| - n
  {
    if n < |xs| {
      KeptPrefix(xs[..|xs| - 1], n, keep);
      assert xs[..|xs| - 1][..n] == xs[..n];
    } else {
      assert xs[..n] == xs;
    }
  }

  /** rebuildElementList's map is correct and order-preserving: a kept
      element moves to its map entry, a dropped one maps to -1, and the
      map increases strictly over kept positions. */
  lemma IndexMapCorrect<T>(xs: seq<T>, keep: set<int>)
    ensures var indexMap := IndexMap(|xs|, keep); var r := Kept(xs, keep);
            && (forall i :: 0 <= i < |xs| ==> (indexMap[i] == -1 <==> i !in keep))
            && (forall i :: 0 <= i < |xs| && i in keep ==> 0 <= indexMap[i] < |r| && r[indexMap[i]] == xs[i])
            && (forall i, j :: 0 <= i < j < |xs| && i in keep && j in keep ==> indexMap[i] < indexMap[j])
  {
    var indexMap := IndexMap(|xs|, keep);
    var r := Kept(xs, keep);
    forall i | 0 <= i < |xs| && i in keep
      ensures 0 <= indexMap[i] < |r| && r[indexMap[i]] == xs[i]
    {
      KeptAt(xs, keep, i);
    }
    forall i, j | 0 <= i < j < |xs| && i in keep && j in keep
      ensures indexMap[i] < indexMap[j]
    {
      CountMonotone(i, j, keep);
    }
  }

  /** The kept element at position i sits at Count(i, keep) in the compacted list. */
  lemma KeptAt<T>(xs: seq<T>, keep: set<int>, i: nat)
    requires i < |xs| && i in keep
    ensures Count(i, keep) < |Kept(xs, keep)| && Kept(xs, keep)[Count(i, keep)] == xs[i]
  {
    var upto := xs[..i + 1];
    KeptPrefix(xs, i + 1, keep);
    assert upto[..|upto| - 1] == xs[..i];
    assert Kept(upto, keep) == Kept(xs[..i], keep) + [xs[i]];
    assert |Kept(xs[..i], keep)| == Count(i, keep);
    CountMonotone(i + 1, |xs|, keep);
  }

  /** rebuildElementList: keep the used positions and the skipped ones. */
  method RebuildElementList<T>(elements: seq<T>, used: set<int>, skip: set<int>) returns (newList: seq<T>, indexMap: seq<int>)
    ensures newList == Kept(elements, used + skip)
    ensures indexMap == IndexMap(|elements|, used + skip)
  {
    var keep := used + skip;
    newList := [];
    indexMap := seq(|elements|, _ => -1);
    for i := 0 to |elements|
      invariant newList == Kept(elements[..i], keep)
      invariant |indexMap| == |elements|
      invariant forall j :: 0 <= j < i ==> indexMap[j] == IndexMap(|elements|, keep)[j]
      invariant forall j :: i <= j < |elements| ==> indexMap[j] == -1
    {
      assert elements[..i + 1][..i] == elements[..i];
      if i in used || i in skip {
        indexMap := indexMap[i := |newList|];
        newList := newList + [elements[i]];
      }
    }
    assert elements[..|elements|] == elements;
  }

  /** remapIndices over a non-null list: through the map, dropping indices
      outside the map and dropped elements. */
  function RemapList(indices: seq<int>, indexMap: seq<int>): (r: seq<int>)
    ensures |r| <= |indices|
  {
    if |indices| == 0 then []
    else
      var prev := indices[|indices| - 1];
      RemapList(indices[..|indices| - 1], indexMap)
        + (if 0 <= prev < |indexMap| && indexMap[prev] != -1 then [indexMap[prev]] else [])
  }

  /** remapIndices: a null list or a null map gives null. */
  function Remap(indices: Option<seq<int>>, indexMap: Option<seq<int>>): (r: Option<seq<int>>)
    ensures r.Some? <==> indices.Some? && indexMap.Some?
  {
    if indices.None? || indexMap.None? then None else Some(RemapList(indices.value, indexMap.value))
  }

  method RemapIndices(indices: Option<seq<int>>, indexMap: Option<seq<int>>) returns (r: Option<seq<int>>)
    ensures r == Remap(indices, indexMap)
  {
    if indices.None? || indexMap.None? {
      return None;
    }
    var xs, mp := indices.value, indexMap.value;
    var out := [];
    for i := 0 to |xs|
      invariant out == RemapList(xs[..i], mp)
    {
      assert xs[..i + 1][..i] == xs[..i];
      var oldIndex := xs[i];
      if 0 <= oldIndex < |mp| {
        var newIndex := mp[oldIndex];
        if newIndex != -1 {
          out := out + [newIndex];
        }
      }
    }
    assert xs[..|xs|] == xs;
    r := Some(out);
  }

  /** Indices that all point at kept elements are remapped one for one,
      and each new index denotes the same element in the compacted list. */
  lemma {:induction false} RemapPreservesElements<T>(elements: seq<T>, keep: set<int>, indices: seq<int>)
    requires forall k :: 0 <= k < |indices| ==> 0 <= indices[k] < |elements| && indices[k] in keep
    ensures var r := RemapList(indices, IndexMap(|elements|, keep)); var kept := Kept(elements, keep);
            && |r| == |indices|
            && forall k :: 0 <= k < |indices| ==> 0 <= r[k] < |kept| && kept[r[k]] == elements[indices[k]]
    decreases |indices|
  {
    IndexMapCorrect(elements, keep);
    if |indices| > 0 {
      RemapPreservesElements(elements, keep, indices[..|indices| - 1]);
    }
  }

  // ------------------------------------------------------------ reclamation

  /** A polygon after the remapping of removeNewlyOrphanedElements. */
  function RemapPolygon(p: Polygon, vertexMap: seq<int>, textureMap: Option<seq<int>>, normalMap: Option<seq<int>>): Polygon
  {
    Polygon(RemapList(p.vertexIndices, vertexMap), Remap(p.textureVertexIndices, textureMap), Remap(p.normalIndices, normalMap))
  }

  function RemapAll(ps: seq<Polygon>, vertexMap: seq<int>, textureMap: Option<seq<int>>, normalMap: Option<seq<int>>): (r: seq<Polygon>)
    ensures |r| == |ps|
    ensures forall k :: 0 <= k < |ps| ==> r[k] == RemapPolygon(ps[k], vertexMap, textureMap, normalMap)
  {
    if |ps| == 0 then [] else RemapAll(ps[..|ps| - 1], vertexMap, textureMap, normalMap) + [RemapPolygon(ps[|ps| - 1], vertexMap, textureMap, normalMap)]
  }

  /** The kept positions of one list: used now, or unused before. */
  function KeepSet(ps: seq<Polygon>, kind: Kind, before: set<int>): set<int>
  {
    Used(ps, kind) + before
  }

  predicate HasElements<T>(xs: Option<seq<T>>)
  {
    xs.Some? && |xs.value| > 0
  }

  /** The texture or normal branch of removeNewlyOrphanedElements: a null
      or empty list becomes null and has no map. */
  method RebuildOptional<T>(elements: Option<seq<T>>, used: set<int>, skip: set<int>) returns (newList: Option<seq<T>>, indexMap: Option<seq<int>>)
    ensures newList == (if HasElements(elements) then Some(Kept(elements.value, used + skip)) else None)
    ensures indexMap == (if HasElements(elements) then Some(IndexMap(|elements.value|, used + skip)) else None)
  {
    if elements.Some? && |elements.value| > 0 {
      var xs, mp := RebuildElementList(elements.value, used, skip);
      newList, indexMap := Some(xs), Some(mp);
    } else {
      newList, indexMap := None, None;
    }
  }

  /** The polygon loop of removeNewlyOrphanedElements. */
  method RemapPolygons(polygons: seq<Polygon>, vertexMap: seq<int>, textureMap: Option<seq<int>>, normalMap: Option<seq<int>>) returns (remapped: seq<Polygon>)
    ensures remapped == RemapAll(polygons, vertexMap, textureMap, normalMap)
  {
    remapped := [];
    for i := 0 to |polygons|
      invariant remapped == RemapAll(polygons[..i], vertexMap, textureMap, normalMap)
    {
      assert polygons[..i + 1][..i] == polygons[..i];
      var p := polygons[i];
      var v := RemapIndices(Some(p.vertexIndices), Some(vertexMap));
      var t := RemapIndices(p.textureVertexIndices, textureMap);
      var n := RemapIndices(p.normalIndices, normalMap);
      remapped := remapped + [Polygon(v.value, t, n)];
    }
    assert polygons[..|polygons|] == polygons;
  }

  /** The compacted lists and remapped polygons removeNewlyOrphanedElements
      produces from the model's lists, given what to keep besides the used
      elements. */
  datatype Reclaimed = Reclaimed(
    vertices: seq<V3.Vector3f>, textureVertices: Option<seq<V2.Vector2f>>,
    normals: Option<seq<V3.Vector3f>>, polygons: seq<Polygon>)

  function Reclaim(vertices: seq<V3.Vector3f>, textures: Option<seq<V2.Vector2f>>, normals: Option<seq<V3.Vector3f>>,
                   ps: seq<Polygon>, skip: UsageInfo): (r: Reclaimed)
    ensures |r.polygons| == |ps|
    ensures r.textureVertices.Some? <==> HasElements(textures)
    ensures r.normals.Some? <==> HasElements(normals)
  {
    var kv := KeepSet(ps, Vertex, skip.orphanedVertices);
    var kt := KeepSet(ps, Texture, skip.orphanedTextures);
    var kn := KeepSet(ps, Normal, skip.orphanedNormals);
    Reclaimed(
      Kept(vertices, kv),
      if HasElements(textures) then Some(Kept(textures.value, kt)) else None,
      if HasElements(normals) then Some(Kept(normals.value, kn)) else None,
      RemapAll(ps, IndexMap(|vertices|, kv),
               if HasElements(textures) then Some(IndexMap(|textures.value|, kt)) else None,
               if HasElements(normals) then Some(IndexMap(|normals.value|, kn)) else None))
  }

  method RemoveNewlyOrphanedElements(m: Models.Model, skipInfo: Option<UsageInfo>)
    modifies m
    ensures var r := Reclaim(old(m.vertices), old(m.textureVertices), old(m.normals), old(m.polygons), skipInfo.GetOr(NoUsage()));
            && m.vertices == r.vertices && m.textureVertices == r.textureVertices
            && m.normals == r.normals && m.polygons == r.polygons
    ensures m.originalVertices == Models.Saved(old(m.originalVertices), m.vertices)
    ensures m.transformation == old(m.transformation) && m.name == old(m.name)
    ensures m.translation == old(m.translation) && m.rotation == old(m.rotation) && m.scale == old(m.scale)
  {
    var skip := skipInfo.GetOr(NoUsage());
    var polygons := m.polygons;
    var current := CollectUsage(polygons);
    var newVertices, vertexMap := RebuildElementList(m.vertices, current.usedVertices, skip.orphanedVertices);
    var newTextures, textureMap := RebuildOptional(m.textureVertices, current.usedTextures, skip.orphanedTextures);
    var newNormals, normalMap := RebuildOptional(m.normals, current.usedNormals, skip.orphanedNormals);
    var remapped := RemapPolygons(polygons, vertexMap, textureMap, normalMap);
    ghost var r := Reclaim(m.vertices, m.textureVertices, m.normals, polygons, skip);
    assert r == Reclaimed(newVertices, newTextures, newNormals, remapped);
    m.SetVertices(newVertices);
    m.SetTextureVertices(newTextures);
    m.SetNormals(newNormals);
    m.SetPolygons(remapped);
  }

  /** removePolygons: the null check, the originally orphaned elements when
      reclaiming, the deletion, then the reclamation. */
  method RemovePolygons(m: Models.Model?, indices: Option<seq<int>>, removeOrphanedVertices: bool) returns (error: Option<string>)
    modifies if m != null then {m} else {}
    ensures m == null ==> error == Some(NULL_MODEL)
    ensures m != null ==> error.None?
    ensures m != null && !removeOrphanedVertices ==>
              && m.polygons == RemoveSelected(old(m.polygons), indices)
              && m.vertices == old(m.vertices) && m.textureVertices == old(m.textureVertices) && m.normals == old(m.normals)
              && m.originalVertices == old(m.originalVertices)
    ensures m != null && removeOrphanedVertices ==>
              var before := OriginalUsage(|old(m.vertices)|, old(m.textureVertices), old(m.normals), old(m.polygons));
              var r := Reclaim(old(m.vertices), old(m.textureVertices), old(m.normals), RemoveSelected(old(m.polygons), indices), before);
              && m.vertices == r.vertices && m.textureVertices == r.textureVertices
              && m.normals == r.normals && m.polygons == r.polygons
              && m.originalVertices == Models.Saved(old(m.originalVertices), m.vertices)
    ensures m != null ==> m.transformation == old(m.transformation) && m.name == old(m.name)
    ensures m != null ==> m.translation == old(m.translation) && m.rotation == old(m.rotation) && m.scale == old(m.scale)
  {
    if m == null {
      return Some(NULL_MODEL);
    }
    var originallyOrphaned: Option<UsageInfo> := None;
    if removeOrphanedVertices {
      var info := FindOriginallyOrphanedElements(m);
      originallyOrphaned := Some(info);
    }
    RemoveSelectedPolygons(m, indices);
    if removeOrphanedVertices {
      RemoveNewlyOrphanedElements(m, originallyOrphaned);
    }
    error := None;
  }

  // ------------------------------------------------------------ properties

  /** After reclamation every vertex a remaining polygon uses survives: its
      indices stay one for one, lie below the new vertex count and denote
      the vertex they denoted before. */
  lemma ReclaimedPolygonKeepsVertices(vertices: seq<V3.Vector3f>, textures: Option<seq<V2.Vector2f>>, normals: Option<seq<V3.Vector3f>>,
                                      ps: seq<Polygon>, skip: UsageInfo, k: nat)
    requires k < |ps|
    requires forall j :: 0 <= j < |ps[k].vertexIndices| ==> 0 <= ps[k].vertexIndices[j] < |vertices|
    ensures var r := Reclaim(vertices, textures, normals, ps, skip);
            var vs := r.polygons[k].vertexIndices;
            && |vs| == |ps[k].vertexIndices|
            && forall j :: 0 <= j < |vs| ==> 0 <= vs[j] < |r.vertices| && r.vertices[vs[j]] == vertices[ps[k].vertexIndices[j]]
  {
    var keep := KeepSet(ps, Vertex, skip.orphanedVertices);
    assert forall j :: 0 <= j < |ps[k].vertexIndices| ==> ps[k].vertexIndices[j] in keep by {
      forall j | 0 <= j < |ps[k].vertexIndices| ensures ps[k].vertexIndices[j] in keep {
        assert ListOf(ps[k], Vertex)[j] == ps[k].vertexIndices[j];
      }
    }
    RemapPreservesElements(vertices, keep, ps[k].vertexIndices);
  }

  /** The same for texture indices: when the model has texture vertices, a
      remaining polygon's texture indices that were in range denote, after
      reclamation, the texture vertex they denoted before. */
  lemma ReclaimedPolygonKeepsTextures(vertices: seq<V3.Vector3f>, textures: Option<seq<V2.Vector2f>>, normals: Option<seq<V3.Vector3f>>,
                                      ps: seq<Polygon>, skip: UsageInfo, k: nat)
    requires k < |ps| && HasElements(textures) && ps[k].textureVertexIndices.Some?
    requires forall j :: 0 <= j < |ps[k].Textures()| ==> 0 <= ps[k].Textures()[j] < |textures.value|
    ensures var r := Reclaim(vertices, textures, normals, ps, skip);
            && r.textureVertices.Some? && r.polygons[k].textureVertexIndices.Some?
            && var ts := r.polygons[k].textureVertexIndices.value;
            && |ts| == |ps[k].Textures()|
            && forall j :: 0 <= j < |ts| ==>
                 0 <= ts[j] < |r.textureVertices.value| && r.textureVertices.value[ts[j]] == textures.value[ps[k].Textures()[j]]
  {
    var keep := KeepSet(ps, Texture, skip.orphanedTextures);
    assert forall j :: 0 <= j < |ps[k].Textures()| ==> ps[k].Textures()[j] in keep by {
      forall j | 0 <= j < |ps[k].Textures()| ensures ps[k].Textures()[j] in keep {
        assert ListOf(ps[k], Texture)[j] == ps[k].Textures()[j];
      }
    }
    RemapPreservesElements(textures.value, keep, ps[k].Textures());
  }

  /** The same for normal indices. */
  lemma ReclaimedPolygonKeepsNormals(vertices: seq<V3.Vector3f>, textures: Option<seq<V2.Vector2f>>, normals: Option<seq<V3.Vector3f>>,
                                     ps: seq<Polygon>, skip: UsageInfo, k: nat)
    requires k < |ps| && HasElements(normals) && ps[k].normalIndices.Some?
    requires forall j :: 0 <= j < |ps[k].Normals()| ==> 0 <= ps[k].Normals()[j] < |normals.value|
    ensures var r := Reclaim(vertices, textures, normals, ps, skip);
            && r.normals.Some? && r.polygons[k].normalIndices.Some?
            && var ns := r.polygons[k].normalIndices.value;
            && |ns| == |ps[k].Normals()|
            && forall j :: 0 <= j < |ns| ==>
                 0 <= ns[j] < |r.normals.value| && r.normals.value[ns[j]] == normals.value[ps[k].Normals()[j]]
  {
    var keep := KeepSet(ps, Normal, skip.orphanedNormals);
    assert forall j :: 0 <= j < |ps[k].Normals()| ==> ps[k].Normals()[j] in keep by {
      forall j | 0 <= j < |ps[k].Normals()| ensures ps[k].Normals()[j] in keep {
        assert ListOf(ps[k], Normal)[j] == ps[k].Normals()[j];
      }
    }
    RemapPreservesElements(normals.value, keep, ps[k].Normals());
  }

  /** A null or empty texture list, and likewise a normal list, ends up
      null on the model and on every remaining polygon. */
  lemma ReclaimDropsEmptyLists(vertices: seq<V3.Vector3f>, textures: Option<seq<V2.Vector2f>>, normals: Option<seq<V3.Vector3f>>,
                               ps: seq<Polygon>, skip: UsageInfo)
    ensures var r := Reclaim(vertices, textures, normals, ps, skip);
            && (!HasElements(textures) ==> r.textureVertices.None? && forall k :: 0 <= k < |ps| ==> r.polygons[k].textureVertexIndices.None?)
            && (!HasElements(normals) ==> r.normals.None? && forall k :: 0 <= k < |ps| ==> r.polygons[k].normalIndices.None?)
  {
  }

  /** An element survives reclamation exactly when a remaining polygon uses
      it or nothing used it before the deletion. */
  lemma SurvivesIffUsedOrOrphan<T>(elements: seq<T>, ps: seq<Polygon>, kind: Kind, before: set<int>, i: nat)
    requires i < |elements|
    ensures IndexMap(|elements|, KeepSet(ps, kind, before))[i] != -1 <==> (Occurs(ps, kind, i) || i in before)
  {
    IndexMapCorrect(elements, KeepSet(ps, kind, before));
    if Occurs(ps, kind, i) {
      var k, j :| 0 <= k < |ps| && 0 <= j < |ListOf(ps[k], kind)| && ListOf(ps[k], kind)[j] == i;
    }
  }

  /** Removing and reclaiming changes setVertices' list, not the saved
      originals: once originals exist, resetTransformations brings back the
      uncompacted vertex list. */
  method RemoveThenReset(m: Models.Model, indices: Option<seq<int>>)
    requires m.originalVertices != []
    modifies m
    ensures m.vertices == old(m.originalVertices)
  {
    var _ := RemovePolygons(m, indices, true);
    m.ResetTransformations();
  }
}

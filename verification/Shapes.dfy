/** The shapes of recorded Stripe events: a join, a check of fakes, and a check of regressions. */
module Shapes {
  import opened Results

  /** The kinds of a scalar, in the order of their names. */
  datatype Kind = Boolean | Integer | Mixed | NullKind | Number | Text

  datatype Json =
    | Null
    | Bool(b: bool)
    | Int(i: int)
    | Float(x: real)
    | Str(s: string)
    | List(items: seq<Json>)
    | Obj(fields: map<string, Json>)

  /** A scalar is the kinds that its text joins; a list has at most one shape, that of its items. */
  datatype Shape =
    | Scalar(kinds: seq<Kind>)
    | ListOf(items: seq<Shape>)
    | Fields(fields: map<string, Shape>)

  const NULL := Scalar([NullKind])
  const MIXED := Scalar([Mixed])
  const OPEN := Fields(map[])

  // ---------------------------------------------------------------- scalars

  function KindsOf(kinds: seq<Kind>): set<Kind> { set k <- kinds }

  function Sorted(kinds: set<Kind>): seq<Kind> {
    (if Boolean in kinds then [Boolean] else [])
    + (if Integer in kinds then [Integer] else [])
    + (if Mixed in kinds then [Mixed] else [])
    + (if NullKind in kinds then [NullKind] else [])
    + (if Number in kinds then [Number] else [])
    + (if Text in kinds then [Text] else [])
  }

  lemma SortedKeepsKinds(kinds: set<Kind>)
    ensures KindsOf(Sorted(kinds)) == kinds
  {
    forall k: Kind
      ensures k in KindsOf(Sorted(kinds)) <==> k in kinds
    {
      match k case Boolean => case Integer => case Mixed => case NullKind => case Number => case Text =>
    }
  }

  /** The kind a scalar value has; a list or an object passed here reads as text. */
  function KindOf(v: Json): Kind {
    match v
    case Null => NullKind
    case Bool(_) => Boolean
    case Int(_) => Integer
    case Float(_) => Number
    case _ => Text
  }

  // ---------------------------------------------------------------- the join

  /** The join of two shapes: null gives way, and different sorts are mixed. */
  function Merge(a: Shape, b: Shape): Shape
    decreases a
  {
    if a == NULL then b
    else if b == NULL then a
    else
      match (a, b)
      case (Fields(f), Fields(g)) =>
        Fields(map k | k in f.Keys + g.Keys ::
                 if k !in g then f[k] else if k !in f then g[k] else Merge(f[k], g[k]))
      case (ListOf(xs), ListOf(ys)) =>
        if xs == [] then b else if ys == [] then a else ListOf([Merge(xs[0], ys[0])])
      case (Scalar(ks), Scalar(ls)) => Scalar(Sorted(KindsOf(ks) + KindsOf(ls)))
      case _ => MIXED
  }

  /** A field's shape, null when the object lacks the field. */
  function Field(fields: map<string, Shape>, key: string): Shape {
    if key in fields then fields[key] else NULL
  }

  /** The shape of a value; what stands under metadata is left open. */
  function ShapeOf(v: Json): Shape
    decreases v, 1
  {
    match v
    case Obj(fields) => Fields(map k | k in fields :: if k == "metadata" then OPEN else ShapeOf(fields[k]))
    case List(items) => ListOf(if items == [] then [] else [ItemShape(items)])
    case _ => Scalar([KindOf(v)])
  }

  /** The merged shape of a list's items, null without items. */
  function ItemShape(items: seq<Json>): Shape
    decreases items, 0
  {
    if items == [] then NULL
    else Merge(ItemShape(items[..|items| - 1]), ShapeOf(items[|items| - 1]))
  }

  method ShapeOfList(entries: seq<Json>) returns (found: seq<Shape>)
    ensures ShapeOf(List(entries)) == ListOf(found)
    ensures |found| <= 1 && (found == [] <==> entries == [])
  {
    found := [];
    for n := 0 to |entries|
      invariant found == if n == 0 then [] else [ItemShape(entries[..n])]
    {
      assert entries[..n + 1][..n] == entries[..n];
      var entry := ShapeOf(entries[n]);
      found := if found == [] then [entry] else [Merge(found[0], entry)];
    }
    assert entries[..|entries|] == entries;
  }

  // ---------------------------------------------------------------- laws on every shape

  lemma {:induction false} MergeCommutes(a: Shape, b: Shape)
    ensures Merge(a, b) == Merge(b, a)
    decreases a
  {
    if a != NULL && b != NULL {
      match (a, b)
      case (Fields(f), Fields(g)) =>
        forall k | k in f && k in g
          ensures Merge(f[k], g[k]) == Merge(g[k], f[k])
        {
          MergeCommutes(f[k], g[k]);
        }
        assert f.Keys + g.Keys == g.Keys + f.Keys;
      case (ListOf(xs), ListOf(ys)) =>
        if xs != [] && ys != [] {
          MergeCommutes(xs[0], ys[0]);
        }
      case (Scalar(ks), Scalar(ls)) =>
        assert KindsOf(ks) + KindsOf(ls) == KindsOf(ls) + KindsOf(ks);
      case _ =>
    }
  }

  /** Kinds sorted and named once, and lists of at most one shape. */
  predicate Canonical(s: Shape) {
    match s
    case Scalar(kinds) => kinds != [] && kinds == Sorted(KindsOf(kinds))
    case ListOf(items) => |items| <= 1 && forall i <- items :: Canonical(i)
    case Fields(fields) => forall k <- fields :: Canonical(fields[k])
  }

  lemma {:induction false} MergeCanonical(a: Shape, b: Shape)
    requires Canonical(a) && Canonical(b)
    ensures Canonical(Merge(a, b))
    decreases a
  {
    if a != NULL && b != NULL {
      match (a, b)
      case (Fields(f), Fields(g)) =>
        forall k | k in f && k in g
          ensures Canonical(Merge(f[k], g[k]))
        {
          MergeCanonical(f[k], g[k]);
        }
      case (ListOf(xs), ListOf(ys)) =>
        if xs != [] && ys != [] {
          MergeCanonical(xs[0], ys[0]);
        }
      case (Scalar(ks), Scalar(ls)) =>
        var both := KindsOf(ks) + KindsOf(ls);
        SortedKeepsKinds(both);
        assert ks[0] in both;
      case _ =>
    }
  }

  lemma {:induction false} ShapeCanonical(v: Json)
    ensures Canonical(ShapeOf(v))
    decreases v, 1
  {
    match v
    case Obj(fields) =>
      forall k | k in fields
        ensures Canonical(ShapeOf(fields[k]))
      {
        ShapeCanonical(fields[k]);
      }
    case List(items) => ItemShapeCanonical(items);
    case _ =>
  }

  lemma {:induction false} ItemShapeCanonical(items: seq<Json>)
    ensures Canonical(ItemShape(items))
    decreases items, 0
  {
    if items != [] {
      ItemShapeCanonical(items[..|items| - 1]);
      ShapeCanonical(items[|items| - 1]);
      MergeCanonical(ItemShape(items[..|items| - 1]), ShapeOf(items[|items| - 1]));
    }
  }

  lemma {:induction false} MergeIdempotent(a: Shape)
    requires Canonical(a)
    ensures Merge(a, a) == a
    decreases a
  {
    match a
    case Fields(f) =>
      forall k | k in f
        ensures Merge(f[k], f[k]) == f[k]
      {
        MergeIdempotent(f[k]);
      }
    case ListOf(xs) =>
      if xs != [] {
        MergeIdempotent(xs[0]);
      }
    case Scalar(ks) => assert KindsOf(ks) + KindsOf(ks) == KindsOf(ks);
  }

  // ---------------------------------------------------------------- when merging associates

  predicate SameSort(a: Shape, b: Shape) {
    a.Scalar? == b.Scalar? && a.ListOf? == b.ListOf?
  }

  /** Exactly when the order of two merges does not matter: what it takes at each shared path. */
  predicate Associates(a: Shape, b: Shape, c: Shape)
    decreases a
  {
    if a == NULL || b == NULL || c == NULL then true
    else if a.Fields? && b.Fields? && c.Fields? then
      forall k :: k in a.fields && k in b.fields && k in c.fields ==>
        Associates(a.fields[k], b.fields[k], c.fields[k])
    else if a.ListOf? && b.ListOf? && c.ListOf? then
      a.items != [] && b.items != [] && c.items != [] ==> Associates(a.items[0], b.items[0], c.items[0])
    else if a.Scalar? && c.Scalar? then
      b.Scalar? || KindsOf(a.kinds) + {Mixed} == KindsOf(c.kinds) + {Mixed}
    else if a.Scalar? then a == MIXED || (!b.Scalar? && SameSort(b, c))
    else if c.Scalar? then c == MIXED || (!b.Scalar? && SameSort(a, b))
    else true
  }

  /** Both orders of merging three shapes agree. */
  predicate AssociatesAt(a: Shape, b: Shape, c: Shape) {
    Merge(Merge(a, b), c) == Merge(a, Merge(b, c))
  }

  lemma CanonicalKinds(ks: seq<Kind>, ls: seq<Kind>)
    requires Canonical(Scalar(ks)) && Canonical(Scalar(ls))
    ensures KindsOf(ks) == KindsOf(ls) <==> ks == ls
  {
  }

  lemma MixedKinds()
    ensures Sorted({Mixed}) == [Mixed] && Sorted({NullKind}) == [NullKind]
    ensures KindsOf([Mixed]) == {Mixed} && KindsOf([NullKind]) == {NullKind}
  {
  }

  lemma MergeScalars(a: Shape, b: Shape)
    requires Canonical(a) && Canonical(b) && a.Scalar? && b.Scalar? && a != NULL && b != NULL
    ensures Merge(a, b).Scalar? && KindsOf(Merge(a, b).kinds) == KindsOf(a.kinds) + KindsOf(b.kinds)
    ensures Canonical(Merge(a, b)) && Merge(a, b) != NULL
  {
    SortedKeepsKinds(KindsOf(a.kinds) + KindsOf(b.kinds));
    MergeCanonical(a, b);
    MixedKinds();
    CanonicalKinds(a.kinds, [NullKind]);
    assert a.kinds[0] in KindsOf(a.kinds);
  }

  lemma AssociatesScalars(a: Shape, b: Shape, c: Shape)
    requires Canonical(a) && Canonical(b) && Canonical(c)
    requires a.Scalar? && b.Scalar? && c.Scalar?
    requires a != NULL && b != NULL && c != NULL
    ensures AssociatesAt(a, b, c)
  {
    MergeScalars(a, b);
    MergeScalars(b, c);
    MergeScalars(Merge(a, b), c);
    MergeScalars(a, Merge(b, c));
    var left, right := Merge(Merge(a, b), c), Merge(a, Merge(b, c));
    assert KindsOf(left.kinds) == KindsOf(right.kinds);
    CanonicalKinds(left.kinds, right.kinds);
    hide Merge, Canonical, Sorted, KindsOf;
  }

  lemma AddMixed(a: Shape)
    requires Canonical(a) && a.Scalar? && a != NULL
    ensures Merge(a, MIXED).Scalar? && Canonical(Merge(a, MIXED))
    ensures KindsOf(Merge(a, MIXED).kinds) == KindsOf(a.kinds) + {Mixed}
    ensures Merge(a, MIXED) == MIXED <==> a == MIXED
  {
    MixedKinds();
    MergeScalars(a, MIXED);
    CanonicalKinds(Merge(a, MIXED).kinds, [Mixed]);
    CanonicalKinds(a.kinds, [Mixed]);
    assert a.kinds[0] in KindsOf(a.kinds);
  }

  /** Shapes of different sorts merge to mixed, those of one sort stay of it. */
  lemma MergeOfSorts(a: Shape, b: Shape)
    requires Canonical(a) && Canonical(b) && a != NULL && b != NULL
    ensures !SameSort(a, b) ==> Merge(a, b) == MIXED
    ensures SameSort(a, b) ==> SameSort(Merge(a, b), a) && Merge(a, b) != NULL
  {
    if a.Scalar? && b.Scalar? {
      MergeScalars(a, b);
    }
  }

  /** What mixed does to a shape, on either side. */
  lemma MergeMixed(a: Shape)
    requires Canonical(a) && a != NULL
    ensures Merge(MIXED, a) == Merge(a, MIXED) && Canonical(Merge(a, MIXED))
    ensures Merge(a, MIXED).Scalar? && (!a.Scalar? ==> Merge(a, MIXED) == MIXED)
    ensures a.Scalar? ==> KindsOf(Merge(a, MIXED).kinds) == KindsOf(a.kinds) + {Mixed}
    ensures a.Scalar? ==> (Merge(a, MIXED) == MIXED <==> a == MIXED)
  {
    MixedKinds();
    MergeCommutes(a, MIXED);
    if a.Scalar? {
      AddMixed(a);
    }
  }

  /** Different sorts meet: what each order gives, by the sort of the ends. */
  lemma AssociatesAcrossSorts(a: Shape, b: Shape, c: Shape)
    requires Canonical(a) && Canonical(b) && Canonical(c)
    requires a != NULL && b != NULL && c != NULL
    requires !(SameSort(a, b) && SameSort(b, c))
    ensures AssociatesAt(a, b, c) <==> Associates(a, b, c)
  {
    MergeOfSorts(a, b);
    MergeOfSorts(b, c);
    MergeMixed(a);
    MergeMixed(c);
    MergeCanonical(a, b);
    MergeCanonical(b, c);
    MixedKinds();
    if SameSort(a, b) {
      MergeOfSorts(Merge(a, b), c);
    } else if SameSort(b, c) {
      MergeOfSorts(a, Merge(b, c));
    }
    if a.Scalar? && c.Scalar? {
      CanonicalKinds(Merge(a, MIXED).kinds, Merge(c, MIXED).kinds);
    }
    hide Merge, Canonical;
  }

  function JoinFields(f: map<string, Shape>, g: map<string, Shape>): (joined: map<string, Shape>)
    ensures joined.Keys == f.Keys + g.Keys
  {
    map k | k in f.Keys + g.Keys :: Merge(Field(f, k), Field(g, k))
  }

  lemma MergeOfFields(f: map<string, Shape>, g: map<string, Shape>)
    ensures Merge(Fields(f), Fields(g)) == Fields(JoinFields(f, g))
  {
  }

  lemma MergeNull(s: Shape)
    ensures Merge(NULL, s) == s && Merge(s, NULL) == s
  {
  }

  lemma AssociatesByField(f: map<string, Shape>, g: map<string, Shape>, h: map<string, Shape>)
    ensures AssociatesAt(Fields(f), Fields(g), Fields(h)) <==>
            forall k :: k in f && k in g && k in h ==> AssociatesAt(f[k], g[k], h[k])
  {
    MergeOfFields(f, g);
    MergeOfFields(g, h);
    MergeOfFields(JoinFields(f, g), h);
    MergeOfFields(f, JoinFields(g, h));
    hide Merge, JoinFields;
    var left, right := JoinFields(JoinFields(f, g), h), JoinFields(f, JoinFields(g, h));
    assert AssociatesAt(Fields(f), Fields(g), Fields(h)) <==> left == right;
    hide AssociatesAt;
    forall k | k in left
      ensures left[k] == right[k] <==> (k in f && k in g && k in h ==> AssociatesAt(f[k], g[k], h[k]))
    {
      AssociatesInField(f, g, h, k);
    }
    assert left.Keys == right.Keys;
    assert left == right <==> forall k <- left :: left[k] == right[k];
  }

  lemma AssociatesInField(f: map<string, Shape>, g: map<string, Shape>, h: map<string, Shape>, k: string)
    requires k in f || k in g || k in h
    ensures JoinFields(JoinFields(f, g), h)[k] == JoinFields(f, JoinFields(g, h))[k] <==>
            (k in f && k in g && k in h ==> AssociatesAt(f[k], g[k], h[k]))
  {
    hide Merge;
    FieldOfJoin(f, g, k);
    FieldOfJoin(g, h, k);
    NullAssociates(Field(f, k), Field(g, k), Field(h, k));
  }

  lemma FieldOfJoin(f: map<string, Shape>, g: map<string, Shape>, k: string)
    ensures Field(JoinFields(f, g), k) == Merge(Field(f, k), Field(g, k))
  {
    MergeNull(NULL);
  }

  lemma NullAssociates(a: Shape, b: Shape, c: Shape)
    ensures a == NULL || b == NULL || c == NULL ==> AssociatesAt(a, b, c)
  {
  }

  lemma AssociatesByItem(xs: seq<Shape>, ys: seq<Shape>, zs: seq<Shape>)
    requires |xs| <= 1 && |ys| <= 1 && |zs| <= 1
    ensures AssociatesAt(ListOf(xs), ListOf(ys), ListOf(zs)) <==>
            (xs != [] && ys != [] && zs != [] ==> AssociatesAt(xs[0], ys[0], zs[0]))
  {
  }

  /** Merging associates exactly under the stated condition. */
  lemma {:induction false} MergeAssociatesIff(a: Shape, b: Shape, c: Shape)
    requires Canonical(a) && Canonical(b) && Canonical(c)
    ensures AssociatesAt(a, b, c) <==> Associates(a, b, c)
    decreases a
  {
    hide Merge, AssociatesAt;
    NullAssociates(a, b, c);
    if a == NULL || b == NULL || c == NULL {
    } else if a.Fields? && b.Fields? && c.Fields? {
      forall k | k in a.fields && k in b.fields && k in c.fields
        ensures AssociatesAt(a.fields[k], b.fields[k], c.fields[k]) <==> Associates(a.fields[k], b.fields[k], c.fields[k])
      {
        MergeAssociatesIff(a.fields[k], b.fields[k], c.fields[k]);
      }
      AssociatesByField(a.fields, b.fields, c.fields);
    } else if a.ListOf? && b.ListOf? && c.ListOf? {
      AssociatesByItem(a.items, b.items, c.items);
      if a.items != [] && b.items != [] && c.items != [] {
        MergeAssociatesIff(a.items[0], b.items[0], c.items[0]);
      }
    } else if a.Scalar? && b.Scalar? && c.Scalar? {
      AssociatesScalars(a, b, c);
    } else {
      AssociatesAcrossSorts(a, b, c);
    }
  }

  // ---------------------------------------------------------------- compatible shapes

  /** Both shapes are an object, a list or a scalar at every path they share, null aside. */
  predicate Compatible(a: Shape, b: Shape)
    decreases a
  {
    if a == NULL || b == NULL then true
    else
      match (a, b)
      case (Fields(f), Fields(g)) => forall k :: k in f && k in g ==> Compatible(f[k], g[k])
      case (ListOf(xs), ListOf(ys)) => xs != [] && ys != [] ==> Compatible(xs[0], ys[0])
      case (Scalar(_), Scalar(_)) => true
      case _ => false
  }

  lemma {:induction false} CompatibleCommutes(a: Shape, b: Shape)
    ensures Compatible(a, b) == Compatible(b, a)
    decreases a
  {
    match (a, b)
    case (Fields(f), Fields(g)) =>
      forall k | k in f && k in g
        ensures Compatible(f[k], g[k]) == Compatible(g[k], f[k])
      {
        CompatibleCommutes(f[k], g[k]);
      }
    case (ListOf(xs), ListOf(ys)) =>
      if xs != [] && ys != [] {
        CompatibleCommutes(xs[0], ys[0]);
      }
    case _ =>
  }

  lemma {:induction false} CompatibleAssociate(a: Shape, b: Shape, c: Shape)
    requires Compatible(a, b) && Compatible(b, c) && Compatible(a, c)
    ensures Associates(a, b, c)
    decreases a
  {
    if a != NULL && b != NULL && c != NULL {
      match a
      case Fields(f) =>
        forall k | k in f && k in b.fields && k in c.fields
          ensures Associates(f[k], b.fields[k], c.fields[k])
        {
          CompatibleAssociate(f[k], b.fields[k], c.fields[k]);
        }
      case ListOf(xs) =>
        if xs != [] && b.items != [] && c.items != [] {
          CompatibleAssociate(xs[0], b.items[0], c.items[0]);
        }
      case Scalar(_) =>
    }
  }

  lemma CompatibleMergeAssociates(a: Shape, b: Shape, c: Shape)
    requires Canonical(a) && Canonical(b) && Canonical(c)
    requires Compatible(a, b) && Compatible(b, c) && Compatible(a, c)
    ensures Merge(Merge(a, b), c) == Merge(a, Merge(b, c))
  {
    CompatibleAssociate(a, b, c);
    MergeAssociatesIff(a, b, c);
  }

  /** {}, [] and "string" do not associate. */
  lemma SortsDoNotAssociate()
    ensures Merge(Merge(OPEN, ListOf([])), Scalar([Text])) != Merge(OPEN, Merge(ListOf([]), Scalar([Text])))
  {
    assert KindsOf([Text]) == {Text} && Sorted({Text}) == [Text];
    MergeAssociatesIff(OPEN, ListOf([]), Scalar([Text]));
  }

  /** What is compatible with two compatible shapes is compatible with their merge. */
  lemma {:induction false} CompatibleWithMerge(a: Shape, b: Shape, c: Shape)
    requires Canonical(a) && Canonical(b) && Canonical(c)
    requires Compatible(a, b) && Compatible(a, c) && Compatible(b, c)
    ensures Compatible(Merge(a, b), c)
    decreases a
  {
    if a != NULL && b != NULL && c != NULL {
      match a
      case Fields(f) =>
        forall k | k in Merge(a, b).fields && k in c.fields
          ensures Compatible(Merge(a, b).fields[k], c.fields[k])
        {
          if k in f && k in b.fields {
            CompatibleWithMerge(f[k], b.fields[k], c.fields[k]);
          }
        }
      case ListOf(xs) =>
        if xs != [] && b.items != [] && c.items != [] {
          CompatibleWithMerge(xs[0], b.items[0], c.items[0]);
        }
      case Scalar(_) =>
    }
  }

  // ---------------------------------------------------------------- recordings

  /** What a recording holds after these shapes: null before the first, as null merges into any. */
  function Fold(ss: seq<Shape>): Shape {
    if ss == [] then NULL else Merge(Fold(ss[..|ss| - 1]), ss[|ss| - 1])
  }

  predicate AllCanonical(ss: seq<Shape>) { forall s <- ss :: Canonical(s) }

  predicate MutuallyCompatible(ss: seq<Shape>) { forall s <- ss, t <- ss :: Compatible(s, t) }

  lemma {:induction false} FoldCanonical(ss: seq<Shape>)
    requires AllCanonical(ss)
    ensures Canonical(Fold(ss))
  {
    if ss == [] {
      MixedKinds();
    } else {
      FoldCanonical(ss[..|ss| - 1]);
      MergeCanonical(Fold(ss[..|ss| - 1]), ss[|ss| - 1]);
    }
  }

  lemma {:induction false} FoldCompatible(ss: seq<Shape>, c: Shape)
    requires AllCanonical(ss) && MutuallyCompatible(ss) && Canonical(c)
    requires forall s <- ss :: Compatible(s, c)
    ensures Compatible(Fold(ss), c)
    decreases |ss|
  {
    if ss != [] {
      var init, last := ss[..|ss| - 1], ss[|ss| - 1];
      FoldCompatible(init, c);
      FoldCompatible(init, last);
      FoldCanonical(init);
      CompatibleWithMerge(Fold(init), last, c);
    }
  }

  function Without(ss: seq<Shape>, i: nat): seq<Shape>
    requires i < |ss|
  {
    ss[..i] + ss[i + 1..]
  }

  /** The last two of three compatible shapes change places. */
  lemma SwapLastTwo(first: Shape, x: Shape, y: Shape)
    requires Canonical(first) && Canonical(x) && Canonical(y)
    requires Compatible(first, x) && Compatible(first, y) && Compatible(x, y) && Compatible(y, x)
    ensures Merge(Merge(first, x), y) == Merge(Merge(first, y), x)
  {
    CompatibleMergeAssociates(first, x, y);
    MergeCommutes(x, y);
    CompatibleMergeAssociates(first, y, x);
  }

  lemma FoldSwapsLastTwo(rest: seq<Shape>, x: Shape, y: Shape)
    requires AllCanonical(rest) && MutuallyCompatible(rest) && Canonical(x) && Canonical(y)
    requires Compatible(x, y) && Compatible(y, x) && forall s <- rest :: Compatible(s, x) && Compatible(s, y)
    ensures Merge(Merge(Fold(rest), x), y) == Merge(Merge(Fold(rest), y), x)
  {
    hide Merge, Fold, Compatible;
    FoldCanonical(rest);
    FoldCompatible(rest, x);
    FoldCompatible(rest, y);
    SwapLastTwo(Fold(rest), x, y);
  }

  /** Any shape of a recording might as well have come last. */
  lemma {:induction false} FoldAnyLast(ss: seq<Shape>, i: nat)
    requires AllCanonical(ss) && MutuallyCompatible(ss) && i < |ss|
    ensures Fold(ss) == Merge(Fold(Without(ss, i)), ss[i])
    decreases |ss|
  {
    hide Merge, Compatible, Canonical;
    var n := |ss| - 1;
    var init, last := ss[..n], ss[n];
    if i == n {
      assert Without(ss, i) == init;
    } else {
      FoldAnyLast(init, i);
      var rest := Without(init, i);
      assert Without(ss, i) == rest + [last];
      assert (rest + [last])[..|rest|] == rest;
      assert forall s <- rest :: s in ss;
      FoldSwapsLastTwo(rest, ss[i], last);
    }
  }

  lemma WithoutMultiset(ss: seq<Shape>, i: nat)
    requires i < |ss|
    ensures multiset(Without(ss, i)) == multiset(ss) - multiset{ss[i]}
  {
    assert ss == ss[..i] + [ss[i]] + ss[i + 1..];
  }

  /** A recording does not depend on the order of the events. */
  lemma {:induction false} FoldIgnoresOrder(ss: seq<Shape>, ts: seq<Shape>)
    requires multiset(ss) == multiset(ts)
    requires AllCanonical(ss) && MutuallyCompatible(ss)
    ensures Fold(ss) == Fold(ts)
    decreases |ts|
  {
    if ts == [] {
      assert |multiset(ss)| == 0;
    } else {
      var n := |ts| - 1;
      assert ts == ts[..n] + [ts[n]];
      assert ts[n] in multiset(ss);
      var i :| 0 <= i < |ss| && ss[i] == ts[n];
      WithoutMultiset(ss, i);
      assert multiset(ts) - multiset{ts[n]} == multiset(ts[..n]);
      assert forall s <- Without(ss, i) :: s in ss;
      FoldIgnoresOrder(Without(ss, i), ts[..n]);
      FoldAnyLast(ss, i);
    }
  }

  // ---------------------------------------------------------------- fakes against recordings

  datatype Step = Key(key: string) | Item

  type Path = seq<Step>

  /** What a value is, as the check of scalars names it. */
  datatype Actual = AnObject | AList | AKind(kind: Kind)

  datatype Problem =
    | FieldNotSent(path: Path)
    | ObjectSent(path: Path, fake: Kind)
    | ListSent(path: Path, fake: Kind)
    | KindSent(path: Path, recorded: seq<Kind>, sent: Actual)

  function ActualOf(v: Json): Actual {
    if v.Obj? then AnObject else if v.List? then AList else AKind(KindOf(v))
  }

  /** Where a fake value has a field the recording lacks, or something of another type. */
  function Differences(fake: Json, recorded: Shape, path: Path): set<Problem>
    decreases fake, 2
  {
    if fake.Null? || recorded == MIXED || recorded == NULL || recorded == OPEN then {}
    else
      match recorded
      case Fields(fields) =>
        if !fake.Obj? then {ObjectSent(path, KindOf(fake))}
        else ProblemsOf(fake, fake.fields.Keys, fields, path)
      case ListOf(items) =>
        if !fake.List? then {ListSent(path, KindOf(fake))}
        else if items == [] then {}
        else set i, p | 0 <= i < |fake.items| && p in Differences(fake.items[i], items[0], path + [Item]) :: p
      case Scalar(kinds) =>
        var actual := ActualOf(fake);
        if actual.AKind? && (actual.kind in kinds || (actual.kind == Integer && Number in kinds)) then {}
        else {KindSent(path, kinds, actual)}
  }

  function ProblemsOf(fake: Json, keys: set<string>, recorded: map<string, Shape>, path: Path): set<Problem>
    requires fake.Obj? && keys <= fake.fields.Keys
    decreases fake, 1
  {
    set k, p | k in keys && p in FieldProblems(fake, k, recorded, path) :: p
  }

  function FieldProblems(fake: Json, key: string, recorded: map<string, Shape>, path: Path): set<Problem>
    requires fake.Obj? && key in fake.fields
    decreases fake, 0
  {
    if key in recorded then Differences(fake.fields[key], recorded[key], path + [Key(key)])
    else {FieldNotSent(path + [Key(key)])}
  }

  /** The value stands at a path inside another. */
  ghost predicate Within(v: Json, path: Path, x: Json)
    decreases path
  {
    if path == [] then v == x
    else
      match path[0]
      case Key(k) => v.Obj? && k in v.fields && Within(v.fields[k], path[1..], x)
      case Item => v.List? && exists item <- v.items :: Within(item, path[1..], x)
  }

  /** What a recording says of a path: anything goes, no such field, or this shape. */
  datatype Known = Anything | NotThere | There(shape: Shape)

  function Follow(s: Shape, path: Path): Known
    decreases path
  {
    if s == MIXED || s == NULL || s == OPEN then Anything
    else if path == [] then There(s)
    else
      match path[0]
      case Key(k) =>
        if !s.Fields? then Anything else if k in s.fields then Follow(s.fields[k], path[1..]) else NotThere
      case Item => if !s.ListOf? || s.items == [] then Anything else Follow(s.items[0], path[1..])
  }

  /** A field must be there; a value other than null must be of the recorded sort, a scalar of a recorded kind. */
  predicate Admits(r: Known, x: Json) {
    match r
    case Anything => true
    case NotThere => false
    case There(s) =>
      x.Null?
      || match s
         case Fields(_) => x.Obj?
         case ListOf(_) => x.List?
         case Scalar(kinds) =>
           !x.Obj? && !x.List? && (KindOf(x) in kinds || (KindOf(x) == Integer && Number in kinds))
  }

  ghost predicate AdmitsAll(s: Shape, v: Json) {
    forall path, x :: Within(v, path, x) ==> Admits(Follow(s, path), x)
  }

  lemma AdmitsAtKey(s: Shape, v: Json, k: string)
    requires s.Fields? && s != OPEN && v.Obj? && k in v.fields && AdmitsAll(s, v)
    ensures k in s.fields && AdmitsAll(s.fields[k], v.fields[k])
  {
    assert Within(v, [Key(k)], v.fields[k]) by {
      assert [Key(k)][1..] == [];
    }
    forall path, x | Within(v.fields[k], path, x)
      ensures k in s.fields && Admits(Follow(s.fields[k], path), x)
    {
      var longer := [Key(k)] + path;
      assert longer[1..] == path;
      assert Within(v, longer, x);
    }
  }

  lemma AdmitsAtItem(s: Shape, v: Json, item: Json)
    requires s.ListOf? && s.items != [] && v.List? && item in v.items && AdmitsAll(s, v)
    ensures AdmitsAll(s.items[0], item)
  {
    forall path, x | Within(item, path, x)
      ensures Admits(Follow(s.items[0], path), x)
    {
      var longer := [Item] + path;
      assert longer[1..] == path;
      assert Within(v, longer, x);
    }
  }

  /** A fake has no differences exactly when the recording admits what stands at each of its paths. */
  lemma {:induction false} NoDifferencesIff(s: Shape, v: Json, at: Path)
    ensures Differences(v, s, at) == {} <==> AdmitsAll(s, v)
    decreases v
  {
    if AdmitsAll(s, v) {
      AdmittedHasNoDifferences(s, v, at);
    }
    if Differences(v, s, at) == {} {
      forall path, x | Within(v, path, x)
        ensures Admits(Follow(s, path), x)
      {
        NoDifferencesAdmits(s, v, at, path, x);
      }
    }
  }

  lemma {:induction false} AdmittedHasNoDifferences(s: Shape, v: Json, at: Path)
    requires AdmitsAll(s, v)
    ensures Differences(v, s, at) == {}
    decreases v
  {
    assert Within(v, [], v);
    assert Admits(Follow(s, []), v);
    if s.Fields? && s != OPEN && v.Obj? {
      forall k | k in v.fields
        ensures FieldProblems(v, k, s.fields, at) == {}
      {
        AdmitsAtKey(s, v, k);
        AdmittedHasNoDifferences(s.fields[k], v.fields[k], at + [Key(k)]);
      }
    } else if s.ListOf? && s.items != [] && v.List? {
      forall i | 0 <= i < |v.items|
        ensures Differences(v.items[i], s.items[0], at + [Item]) == {}
      {
        AdmitsAtItem(s, v, v.items[i]);
        AdmittedHasNoDifferences(s.items[0], v.items[i], at + [Item]);
      }
    }
  }

  lemma {:induction false} NoDifferencesAdmits(s: Shape, v: Json, at: Path, path: Path, x: Json)
    requires Differences(v, s, at) == {} && Within(v, path, x)
    ensures Admits(Follow(s, path), x)
    decreases v
  {
    if s != MIXED && s != NULL && s != OPEN && path != [] {
      match path[0]
      case Key(k) =>
        if s.Fields? {
          NoFieldProblems(v, k, s, at);
          NoDifferencesAdmits(s.fields[k], v.fields[k], at + [Key(k)], path[1..], x);
        }
      case Item =>
        if s.ListOf? && s.items != [] {
          var i :| 0 <= i < |v.items| && Within(v.items[i], path[1..], x);
          NoItemProblems(v, i, s, at);
          NoDifferencesAdmits(s.items[0], v.items[i], at + [Item], path[1..], x);
        }
    }
  }

  lemma FieldProblemIsReported(v: Json, k: string, s: Shape, at: Path, p: Problem)
    requires s.Fields? && s != OPEN && v.Obj? && k in v.fields && p in FieldProblems(v, k, s.fields, at)
    ensures p in Differences(v, s, at)
  {
  }

  lemma NoFieldProblems(v: Json, k: string, s: Shape, at: Path)
    requires s.Fields? && s != OPEN && v.Obj? && k in v.fields && Differences(v, s, at) == {}
    ensures k in s.fields && Differences(v.fields[k], s.fields[k], at + [Key(k)]) == {}
  {
    if k !in s.fields {
      FieldProblemIsReported(v, k, s, at, FieldNotSent(at + [Key(k)]));
    } else if FieldProblems(v, k, s.fields, at) != {} {
      var p :| p in FieldProblems(v, k, s.fields, at);
      FieldProblemIsReported(v, k, s, at, p);
    }
  }

  lemma ItemProblemIsReported(v: Json, i: nat, s: Shape, at: Path, p: Problem)
    requires s.ListOf? && s.items != [] && v.List? && i < |v.items|
    requires p in Differences(v.items[i], s.items[0], at + [Item])
    ensures p in Differences(v, s, at)
  {
  }

  lemma NoItemProblems(v: Json, i: nat, s: Shape, at: Path)
    requires s.ListOf? && s.items != [] && v.List? && i < |v.items| && Differences(v, s, at) == {}
    ensures Differences(v.items[i], s.items[0], at + [Item]) == {}
  {
    if Differences(v.items[i], s.items[0], at + [Item]) != {} {
      var p :| p in Differences(v.items[i], s.items[0], at + [Item]);
      ItemProblemIsReported(v, i, s, at, p);
    }
  }

  /** What a problem says of a path, in terms of what the fake has there and what is recorded. */
  ghost predicate Tells(p: Problem, known: Known, x: Json, path: Path) {
    match p
    case FieldNotSent(q) => q == path && known.NotThere?
    case ObjectSent(q, fake) => q == path && known.There? && known.shape.Fields? && !x.Null? && !x.Obj? && fake == KindOf(x)
    case ListSent(q, fake) => q == path && known.There? && known.shape.ListOf? && !x.Null? && !x.List? && fake == KindOf(x)
    case KindSent(q, kinds, sent) =>
      q == path && known == There(Scalar(kinds)) && !x.Null? && (x.Obj? <==> sent == AnObject) && (x.List? <==> sent == AList)
      && (sent.AKind? ==> sent.kind == KindOf(x) && sent.kind !in kinds && !(x.Int? && Number in kinds))
  }

  /** Every problem reported is of something that stands in the fake, and says of it what is so. */
  lemma {:induction false} ProblemsAreSo(v: Json, s: Shape, at: Path, p: Problem) returns (path: Path, x: Json)
    requires p in Differences(v, s, at)
    ensures Within(v, path, x) && Tells(p, Follow(s, path), x, at + path)
    decreases v
  {
    hide Within, Tells, Follow;
    if s.Fields? && v.Obj? {
      var k :| k in v.fields && p in FieldProblems(v, k, s.fields, at);
      if k in s.fields {
        var rest;
        rest, x := ProblemsAreSo(v.fields[k], s.fields[k], at + [Key(k)], p);
        path := [Key(k)] + rest;
        TellsAtKey(v, s, at, p, k, rest, x);
      } else {
        path, x := [Key(k)], v.fields[k];
        TellsGone(v, s, at, k);
      }
    } else if s.ListOf? && v.List? {
      var i :| 0 <= i < |v.items| && p in Differences(v.items[i], s.items[0], at + [Item]);
      var rest;
      rest, x := ProblemsAreSo(v.items[i], s.items[0], at + [Item], p);
      path := [Item] + rest;
      TellsAtItem(v, s, at, p, i, rest, x);
    } else {
      path, x := [], v;
      TellsHere(v, s, at, p);
    }
  }

  lemma TellsHere(v: Json, s: Shape, at: Path, p: Problem)
    requires p in Differences(v, s, at) && !(s.Fields? && v.Obj?) && !(s.ListOf? && v.List?)
    ensures Within(v, [], v) && Tells(p, Follow(s, []), v, at + [])
  {
    assert at + [] == at;
  }

  lemma TellsGone(v: Json, s: Shape, at: Path, k: string)
    requires s.Fields? && s != OPEN && v.Obj? && k in v.fields && k !in s.fields
    ensures Within(v, [Key(k)], v.fields[k])
    ensures Tells(FieldNotSent(at + [Key(k)]), Follow(s, [Key(k)]), v.fields[k], at + [Key(k)])
  {
    assert [Key(k)][1..] == [];
  }

  lemma TellsAtKey(v: Json, s: Shape, at: Path, p: Problem, k: string, rest: Path, x: Json)
    requires s.Fields? && s != OPEN && v.Obj? && k in v.fields && k in s.fields
    requires Within(v.fields[k], rest, x) && Tells(p, Follow(s.fields[k], rest), x, at + [Key(k)] + rest)
    ensures Within(v, [Key(k)] + rest, x) && Tells(p, Follow(s, [Key(k)] + rest), x, at + ([Key(k)] + rest))
  {
    hide Tells;
    assert ([Key(k)] + rest)[1..] == rest && at + [Key(k)] + rest == at + ([Key(k)] + rest);
  }

  lemma TellsAtItem(v: Json, s: Shape, at: Path, p: Problem, i: nat, rest: Path, x: Json)
    requires s.ListOf? && s.items != [] && v.List? && i < |v.items|
    requires Within(v.items[i], rest, x) && Tells(p, Follow(s.items[0], rest), x, at + [Item] + rest)
    ensures Within(v, [Item] + rest, x) && Tells(p, Follow(s, [Item] + rest), x, at + ([Item] + rest))
  {
    hide Tells;
    assert ([Item] + rest)[1..] == rest && at + [Item] + rest == at + ([Item] + rest);
  }

  lemma ProblemsOfOneMore(fake: Json, keys: set<string>, key: string, recorded: map<string, Shape>, path: Path)
    requires fake.Obj? && keys <= fake.fields.Keys && key in fake.fields
    ensures ProblemsOf(fake, keys + {key}, recorded, path)
         == ProblemsOf(fake, keys, recorded, path) + FieldProblems(fake, key, recorded, path)
  {
    hide Differences, FieldProblems;
  }

  /** The problems of an object's fields, one field after the other. */
  method ObjectProblems(fake: Json, recorded: map<string, Shape>, path: Path) returns (problems: set<Problem>)
    requires fake.Obj? && recorded != map[]
    ensures problems == Differences(fake, Fields(recorded), path)
  {
    problems := {};
    var todo := fake.fields.Keys;
    while todo != {}
      invariant todo <= fake.fields.Keys
      invariant problems == ProblemsOf(fake, fake.fields.Keys - todo, recorded, path)
      decreases |todo|
    {
      var key :| key in todo;
      ProblemsOfOneMore(fake, fake.fields.Keys - todo, key, recorded, path);
      assert fake.fields.Keys - (todo - {key}) == fake.fields.Keys - todo + {key};
      problems := problems
        + if key in recorded then Differences(fake.fields[key], recorded[key], path + [Key(key)])
          else {FieldNotSent(path + [Key(key)])};
      todo := todo - {key};
    }
    assert fake.fields.Keys - todo == fake.fields.Keys;
  }

  /** Values of one kind of scalar, whatever their contents. */
  predicate SameKind(v: Json, w: Json) {
    (v.Bool? && w.Bool?) || (v.Int? && w.Int?) || (v.Float? && w.Float?) || (v.Str? && w.Str?)
  }

  /** A scalar seen once admits null, its own kind, and whole numbers for fractional ones; null admits anything. */
  lemma ScalarAdmitsIff(v: Json, w: Json, at: Path)
    requires !v.Obj? && !v.List?
    ensures Differences(w, ShapeOf(v), at) == {} <==> v.Null? || w.Null? || SameKind(v, w) || (v.Float? && w.Int?)
  {
    var kinds := ShapeOf(v).kinds;
    assert ActualOf(w).AKind? || KindSent(at, kinds, ActualOf(w)) in {KindSent(at, kinds, ActualOf(w))};
  }

  // ---------------------------------------------------------------- values that agree

  /** The value stands at a path inside another; metadata is not looked into. */
  ghost predicate Stands(v: Json, path: Path, x: Json)
    decreases path
  {
    if path == [] then v == x
    else
      match path[0]
      case Key(k) => v.Obj? && k in v.fields && k != "metadata" && Stands(v.fields[k], path[1..], x)
      case Item => v.List? && exists item <- v.items :: Stands(item, path[1..], x)
  }

  predicate SameSortOfValue(x: Json, y: Json) {
    x.Obj? == y.Obj? && x.List? == y.List?
  }

  /** At every path, what stands in both is an object, a list or a scalar in both, null aside. */
  ghost predicate Agree(v: Json, w: Json) {
    forall path, x, y :: Stands(v, path, x) && Stands(w, path, y) && !x.Null? && !y.Null? ==> SameSortOfValue(x, y)
  }

  ghost predicate AllAgree(vs: seq<Json>) {
    forall v <- vs, w <- vs :: Agree(v, w)
  }

  lemma AgreeAtRoot(v: Json, w: Json)
    requires Agree(v, w) && !v.Null? && !w.Null?
    ensures SameSortOfValue(v, w)
  {
    assert Stands(v, [], v) && Stands(w, [], w);
  }

  lemma AgreeAtField(v: Json, w: Json, k: string)
    requires v.Obj? && w.Obj? && k in v.fields && k in w.fields && k != "metadata"
    requires Agree(v, w)
    ensures Agree(v.fields[k], w.fields[k])
  {
    forall path, x, y | Stands(v.fields[k], path, x) && Stands(w.fields[k], path, y) && !x.Null? && !y.Null?
      ensures SameSortOfValue(x, y)
    {
      var longer := [Key(k)] + path;
      assert longer[1..] == path;
      assert Stands(v, longer, x) && Stands(w, longer, y);
    }
  }

  lemma AgreeAtItems(v: Json, w: Json, a: Json, b: Json)
    requires v.List? && w.List? && a in v.items && b in w.items
    requires Agree(v, w)
    ensures Agree(a, b)
  {
    forall path, x, y | Stands(a, path, x) && Stands(b, path, y) && !x.Null? && !y.Null?
      ensures SameSortOfValue(x, y)
    {
      var longer := [Item] + path;
      assert longer[1..] == path;
      assert Stands(v, longer, x) && Stands(w, longer, y);
    }
  }

  ghost function ShapesOf(vs: seq<Json>): (ss: seq<Shape>)
    ensures |ss| == |vs|
    ensures forall i :: 0 <= i < |vs| ==> ss[i] == ShapeOf(vs[i])
  {
    seq(|vs|, i requires 0 <= i < |vs| => ShapeOf(vs[i]))
  }

  lemma {:induction false} ItemShapeFolds(vs: seq<Json>)
    ensures ItemShape(vs) == Fold(ShapesOf(vs))
  {
    if vs != [] {
      ItemShapeFolds(vs[..|vs| - 1]);
      assert ShapesOf(vs)[..|vs| - 1] == ShapesOf(vs[..|vs| - 1]);
    }
  }

  lemma ShapesCanonical(vs: seq<Json>)
    ensures AllCanonical(ShapesOf(vs))
  {
    forall v | v in vs { ShapeCanonical(v); }
  }

  // ---------------------------------------------------------------- shapes show their values

  ghost function ItemsOf(vs: seq<Json>): set<Json> { set v <- vs }

  ghost function FieldsIn(vs: set<Json>, k: string): set<Json> { set v <- vs | v.Obj? && k in v.fields :: v.fields[k] }

  ghost function ItemsIn(vs: set<Json>): set<Json> {
    set v, i | v in vs && v.List? && 0 <= i < |v.items| :: v.items[i]
  }

  predicate IsScalar(v: Json) { !v.Null? && !v.Obj? && !v.List? }

  /** The values are of two sorts, null aside. */
  ghost predicate Mix(vs: set<Json>) {
    exists x <- vs, y <- vs :: !x.Null? && !y.Null? && !SameSortOfValue(x, y)
  }

  /** At each path of the shape one of the values has its sort there, and values of two sorts where it is mixed. */
  ghost predicate Shown(s: Shape, vs: set<Json>)
    decreases s
  {
    match s
    case Scalar(kinds) => if Mixed in kinds then Mix(vs) else s == NULL || exists x <- vs :: IsScalar(x)
    case ListOf(items) => (exists x <- vs :: x.List?) && forall i <- items :: Shown(i, ItemsIn(vs))
    case Fields(fields) =>
      (exists x <- vs :: x.Obj?) && forall k <- fields :: k != "metadata" ==> Shown(fields[k], FieldsIn(vs, k))
  }

  lemma {:induction false} ShownByMore(s: Shape, vs: set<Json>, more: set<Json>)
    requires Shown(s, vs) && vs <= more
    ensures Shown(s, more)
    decreases s
  {
    match s
    case Scalar(_) =>
    case ListOf(items) =>
      forall i | i in items
        ensures Shown(i, ItemsIn(more))
      {
        ShownByMore(i, ItemsIn(vs), ItemsIn(more));
      }
    case Fields(fields) =>
      forall k | k in fields && k != "metadata"
        ensures Shown(fields[k], FieldsIn(more, k))
      {
        ShownByMore(fields[k], FieldsIn(vs, k), FieldsIn(more, k));
      }
  }

  lemma {:induction false} MergeIsShown(s: Shape, t: Shape, vs: set<Json>)
    requires Shown(s, vs) && Shown(t, vs) && Canonical(s) && Canonical(t)
    ensures Shown(Merge(s, t), vs)
    decreases s
  {
    if s != NULL && t != NULL {
      if s.Fields? && t.Fields? {
        forall k | k in s.fields && k in t.fields && k != "metadata"
          ensures Shown(Merge(s.fields[k], t.fields[k]), FieldsIn(vs, k))
        {
          MergeIsShown(s.fields[k], t.fields[k], FieldsIn(vs, k));
        }
      } else if s.ListOf? && t.ListOf? {
        if s.items != [] && t.items != [] {
          MergeIsShown(s.items[0], t.items[0], ItemsIn(vs));
        }
      } else if s.Scalar? && t.Scalar? {
        MergeScalars(s, t);
        assert forall k :: k in Merge(s, t).kinds <==> k in KindsOf(Merge(s, t).kinds);
      }
    }
  }

  lemma {:induction false} ShapeIsShown(v: Json)
    ensures Shown(ShapeOf(v), {v})
    decreases v, 1
  {
    match v
    case Obj(fields) =>
      forall k | k in fields && k != "metadata"
        ensures Shown(ShapeOf(fields[k]), FieldsIn({v}, k))
      {
        ShapeIsShown(fields[k]);
        assert FieldsIn({v}, k) == {fields[k]};
      }
    case List(items) =>
      ItemsAreShown(items);
      assert ItemsIn({v}) == ItemsOf(items);
    case _ =>
  }

  lemma {:induction false} ItemsAreShown(items: seq<Json>)
    ensures Shown(ItemShape(items), ItemsOf(items))
    decreases items, 0
  {
    if items != [] {
      var init, last := items[..|items| - 1], items[|items| - 1];
      ItemsAreShown(init);
      ShapeIsShown(last);
      ShownByMore(ItemShape(init), ItemsOf(init), ItemsOf(items));
      ShownByMore(ShapeOf(last), {last}, ItemsOf(items));
      ItemShapeCanonical(init);
      ShapeCanonical(last);
      MergeIsShown(ItemShape(init), ShapeOf(last), ItemsOf(items));
    }
  }

  ghost predicate AgreeIn(vs: set<Json>) { forall v <- vs, w <- vs :: Agree(v, w) }

  lemma AgreeingDoNotMix(vs: set<Json>)
    requires AgreeIn(vs)
    ensures !Mix(vs)
  {
    hide Agree;
    forall x, y | x in vs && y in vs && !x.Null? && !y.Null?
      ensures SameSortOfValue(x, y)
    {
      AgreeAtRoot(x, y);
    }
  }

  lemma AgreeingFields(vs: set<Json>, k: string)
    requires AgreeIn(vs) && k != "metadata"
    ensures AgreeIn(FieldsIn(vs, k))
  {
    hide Agree;
    forall a, b | a in FieldsIn(vs, k) && b in FieldsIn(vs, k)
      ensures Agree(a, b)
    {
      var v :| v in vs && v.Obj? && k in v.fields && v.fields[k] == a;
      var w :| w in vs && w.Obj? && k in w.fields && w.fields[k] == b;
      AgreeAtField(v, w, k);
    }
  }

  lemma AgreeingItems(vs: set<Json>)
    requires AgreeIn(vs)
    ensures AgreeIn(ItemsIn(vs))
  {
    hide Agree;
    forall a, b | a in ItemsIn(vs) && b in ItemsIn(vs)
      ensures Agree(a, b)
    {
      var v :| v in vs && v.List? && a in v.items;
      var w :| w in vs && w.List? && b in w.items;
      AgreeAtItems(v, w, a, b);
    }
  }

  /** Shapes of agreeing values are compatible, */
  lemma {:induction false} AgreeingAreCompatible(s: Shape, t: Shape, vs: set<Json>)
    requires Shown(s, vs) && Shown(t, vs) && OpenMetadata(s) && OpenMetadata(t) && AgreeIn(vs)
    ensures Compatible(s, t)
    decreases s
  {
    AgreeingDoNotMix(vs);
    hide AgreeIn;
    if s.Fields? && t.Fields? {
      forall k | k in s.fields && k in t.fields && k != "metadata"
        ensures Compatible(s.fields[k], t.fields[k])
      {
        AgreeingFields(vs, k);
        AgreeingAreCompatible(s.fields[k], t.fields[k], FieldsIn(vs, k));
      }
    } else if s.ListOf? && t.ListOf? && s.items != [] && t.items != [] {
      AgreeingItems(vs);
      AgreeingAreCompatible(s.items[0], t.items[0], ItemsIn(vs));
    }
  }

  lemma AgreeingShapes(v: Json, w: Json)
    requires Agree(v, w) && Agree(w, v) && Agree(v, v) && Agree(w, w)
    ensures Compatible(ShapeOf(v), ShapeOf(w))
  {
    ShapeIsShown(v);
    ShapeIsShown(w);
    ShownByMore(ShapeOf(v), {v}, {v, w});
    ShownByMore(ShapeOf(w), {w}, {v, w});
    ShapeOpensMetadata(v);
    ShapeOpensMetadata(w);
    AgreeingAreCompatible(ShapeOf(v), ShapeOf(w), {v, w});
  }

  // ---------------------------------------------------------------- a recording covers its values

  /** Every metadata of a shape is an open object, as in the shape of any value. */
  predicate OpenMetadata(s: Shape) {
    match s
    case Fields(fields) => forall k <- fields :: if k == "metadata" then fields[k] == OPEN else OpenMetadata(fields[k])
    case ListOf(items) => forall i <- items :: OpenMetadata(i)
    case Scalar(_) => true
  }

  lemma {:induction false} MergeOpensMetadata(a: Shape, b: Shape)
    requires OpenMetadata(a) && OpenMetadata(b)
    ensures OpenMetadata(Merge(a, b))
    decreases a
  {
    if a.Fields? && b.Fields? {
      forall k | k in a.fields && k in b.fields && k != "metadata"
        ensures OpenMetadata(Merge(a.fields[k], b.fields[k]))
      {
        MergeOpensMetadata(a.fields[k], b.fields[k]);
      }
    } else if a.ListOf? && b.ListOf? && a.items != [] && b.items != [] {
      MergeOpensMetadata(a.items[0], b.items[0]);
    }
  }

  lemma {:induction false} ShapeOpensMetadata(v: Json)
    ensures OpenMetadata(ShapeOf(v))
    decreases v, 1
  {
    match v
    case Obj(fields) =>
      forall k | k in fields
        ensures OpenMetadata(ShapeOf(fields[k]))
      {
        ShapeOpensMetadata(fields[k]);
      }
    case List(items) => ItemShapeOpensMetadata(items);
    case _ =>
  }

  lemma {:induction false} ItemShapeOpensMetadata(items: seq<Json>)
    ensures OpenMetadata(ItemShape(items))
    decreases items, 0
  {
    if items != [] {
      ItemShapeOpensMetadata(items[..|items| - 1]);
      ShapeOpensMetadata(items[|items| - 1]);
      MergeOpensMetadata(ItemShape(items[..|items| - 1]), ShapeOf(items[|items| - 1]));
    }
  }

  /** At every path of the value the shape has the value's own sort, field or kind, or is mixed with others. */
  predicate Covers(s: Shape, v: Json)
    decreases v
  {
    v.Null? || (s.Scalar? && Mixed in s.kinds)
    || match v
       case Obj(fields) =>
         s.Fields? && forall k <- fields ::
           k in s.fields && if k == "metadata" then s.fields[k] == OPEN else Covers(s.fields[k], fields[k])
       case List(items) =>
         s.ListOf? && (items != [] ==> s.items != []) && forall item <- items :: Covers(s.items[0], item)
       case _ => s.Scalar? && KindOf(v) in s.kinds
  }

  /** Merging anything in keeps what is covered. */
  lemma {:induction false} MergeKeepsCover(s: Shape, t: Shape, v: Json)
    requires Covers(s, v) && OpenMetadata(s) && OpenMetadata(t) && Canonical(s) && Canonical(t)
    ensures Covers(Merge(s, t), v)
    decreases v
  {
    if s != NULL && t != NULL && !v.Null? {
      if s.Scalar? && t.Scalar? {
        MergeScalars(s, t);
        assert forall k :: k in Merge(s, t).kinds <==> k in KindsOf(Merge(s, t).kinds);
      } else if s.Fields? && t.Fields? {
        forall k | k in v.fields && k != "metadata" && k in t.fields
          ensures Covers(Merge(s.fields[k], t.fields[k]), v.fields[k])
        {
          MergeKeepsCover(s.fields[k], t.fields[k], v.fields[k]);
        }
      } else if s.ListOf? && t.ListOf? && s.items != [] && t.items != [] {
        forall item | item in v.items
          ensures Covers(Merge(s.items[0], t.items[0]), item)
        {
          MergeKeepsCover(s.items[0], t.items[0], item);
        }
      }
    }
  }

  lemma {:induction false} FoldKeepsCover(vs: seq<Json>, v: Json)
    requires forall w <- vs :: Covers(ShapeOf(w), w)
    requires v in vs
    ensures Covers(Fold(ShapesOf(vs)), v)
    decreases |vs|
  {
    hide Merge, ShapeOf, Covers, OpenMetadata, Canonical;
    var init, last := vs[..|vs| - 1], vs[|vs| - 1];
    assert vs == init + [last];
    FoldOneMore(init, last);
    FoldParts(init);
    ShapeCanonical(last);
    ShapeOpensMetadata(last);
    if v in init {
      FoldKeepsCover(init, v);
      MergeKeepsCover(Fold(ShapesOf(init)), ShapeOf(last), v);
    } else {
      MergeKeepsCover(ShapeOf(last), Fold(ShapesOf(init)), v);
      MergeCommutes(ShapeOf(last), Fold(ShapesOf(init)));
    }
  }

  lemma FoldParts(vs: seq<Json>)
    ensures Canonical(Fold(ShapesOf(vs))) && OpenMetadata(Fold(ShapesOf(vs))) && Shown(Fold(ShapesOf(vs)), ItemsOf(vs))
  {
    ItemShapeFolds(vs);
    ItemShapeCanonical(vs);
    ItemShapeOpensMetadata(vs);
    ItemsAreShown(vs);
  }

  lemma FoldOneMore(vs: seq<Json>, v: Json)
    ensures Fold(ShapesOf(vs + [v])) == Merge(Fold(ShapesOf(vs)), ShapeOf(v))
  {
    hide Merge, ShapeOf;
    assert ShapesOf(vs + [v])[..|vs|] == ShapesOf(vs);
  }

  lemma {:induction false} ShapeCoversValue(v: Json)
    ensures Covers(ShapeOf(v), v)
    decreases v
  {
    match v
    case Obj(fields) =>
      forall k | k in fields && k != "metadata"
        ensures Covers(ShapeOf(fields[k]), fields[k])
      {
        ShapeCoversValue(fields[k]);
      }
    case List(items) =>
      ItemShapeFolds(items);
      forall item | item in items
        ensures Covers(ShapeOf(item), item)
      {
        ShapeCoversValue(item);
      }
      forall item | item in items
        ensures Covers(ItemShape(items), item)
      {
        FoldKeepsCover(items, item);
      }
    case _ =>
  }

  // ---------------------------------------------------------------- when a recording admits its values

  /** Wherever the recording is mixed it is nothing else: no other kind was merged into mixed. */
  predicate Whole(s: Shape) {
    match s
    case Scalar(kinds) => Mixed in kinds ==> s == MIXED
    case ListOf(items) => forall i <- items :: Whole(i)
    case Fields(fields) => forall k <- fields :: Whole(fields[k])
  }

  lemma {:induction false} CoveredHasNoDifferences(s: Shape, v: Json, path: Path)
    requires Covers(s, v) && Whole(s)
    ensures Differences(v, s, path) == {}
    decreases v
  {
    if s.Fields? && v.Obj? {
      forall k | k in v.fields
        ensures FieldProblems(v, k, s.fields, path) == {}
      {
        if k != "metadata" {
          CoveredHasNoDifferences(s.fields[k], v.fields[k], path + [Key(k)]);
        }
      }
    } else if s.ListOf? && v.List? {
      forall i | 0 <= i < |v.items|
        ensures Differences(v.items[i], s.items[0], path + [Item]) == {}
      {
        CoveredHasNoDifferences(s.items[0], v.items[i], path + [Item]);
      }
    }
  }

  lemma BrokenScalarRefusesOne(s: Shape, vs: set<Json>, path: Path) returns (v: Json)
    requires s.Scalar? && Shown(s, vs) && Canonical(s) && !Whole(s)
    ensures v in vs && Differences(v, s, path) != {}
  {
    var x, y :| x in vs && y in vs && !x.Null? && !y.Null? && !SameSortOfValue(x, y);
    v := if x.Obj? || x.List? then x else y;
    assert KindSent(path, s.kinds, ActualOf(v)) in Differences(v, s, path);
  }

  lemma ItemIsRefused(s: Shape, vs: set<Json>, item: Json, path: Path) returns (v: Json)
    requires s.ListOf? && s.items != [] && item in ItemsIn(vs) && Differences(item, s.items[0], path + [Item]) != {}
    ensures v in vs && Differences(v, s, path) != {}
  {
    var list, n :| list in vs && list.List? && 0 <= n < |list.items| && list.items[n] == item;
    v := list;
    var p :| p in Differences(item, s.items[0], path + [Item]);
    ItemProblemIsReported(v, n, s, path, p);
  }

  lemma FieldIsRefused(s: Shape, vs: set<Json>, k: string, x: Json, path: Path) returns (v: Json)
    requires s.Fields? && k in s.fields && x in FieldsIn(vs, k)
    requires Differences(x, s.fields[k], path + [Key(k)]) != {}
    ensures v in vs && Differences(v, s, path) != {}
  {
    v :| v in vs && v.Obj? && k in v.fields && v.fields[k] == x;
    var p :| p in Differences(x, s.fields[k], path + [Key(k)]);
    assert p in FieldProblems(v, k, s.fields, path);
    FieldProblemIsReported(v, k, s, path, p);
  }

  lemma ItemIsShown(s: Shape, vs: set<Json>, i: Shape)
    requires s.ListOf? && i in s.items && Shown(s, vs) && OpenMetadata(s) && Canonical(s)
    ensures s.items == [i] && Shown(i, ItemsIn(vs)) && OpenMetadata(i) && Canonical(i)
  {
  }

  lemma FieldIsShown(s: Shape, vs: set<Json>, k: string)
    requires s.Fields? && k in s.fields && Shown(s, vs) && OpenMetadata(s) && Canonical(s) && !Whole(s.fields[k])
    ensures Shown(s.fields[k], FieldsIn(vs, k)) && OpenMetadata(s.fields[k]) && Canonical(s.fields[k])
  {
  }

  /** Where something was merged into mixed, one of the values is refused: an object or a list that made it mixed. */
  lemma {:induction false} BrokenRefusesOne(s: Shape, vs: set<Json>, path: Path) returns (v: Json)
    requires Shown(s, vs) && OpenMetadata(s) && Canonical(s) && !Whole(s)
    ensures v in vs && Differences(v, s, path) != {}
    decreases s
  {
    hide Differences, FieldsIn, ItemsIn, Mix, Shown, OpenMetadata, Canonical;
    match s
    case Scalar(_) => v := BrokenScalarRefusesOne(s, vs, path);
    case ListOf(items) =>
      var i :| i in items && !Whole(i);
      ItemIsShown(s, vs, i);
      var item := BrokenRefusesOne(i, ItemsIn(vs), path + [Item]);
      v := ItemIsRefused(s, vs, item, path);
    case Fields(fields) =>
      var k :| k in fields && !Whole(fields[k]);
      FieldIsShown(s, vs, k);
      var x := BrokenRefusesOne(fields[k], FieldsIn(vs, k), path + [Key(k)]);
      v := FieldIsRefused(s, vs, k, x, path);
  }

  /** A recording reports no difference for any of the values it was folded from exactly when it is whole. */
  lemma RecordingAdmitsIff(vs: seq<Json>, path: Path)
    ensures (forall v <- vs :: Differences(v, Fold(ShapesOf(vs)), path) == {}) <==> Whole(Fold(ShapesOf(vs)))
  {
    hide Differences, Fold, ShapeOf, Whole, Shown, OpenMetadata, Covers, Canonical;
    FoldParts(vs);
    if Whole(Fold(ShapesOf(vs))) {
      forall v | v in vs
        ensures Differences(v, Fold(ShapesOf(vs)), path) == {}
      {
        forall w | w in vs { ShapeCoversValue(w); }
        FoldKeepsCover(vs, v);
        CoveredHasNoDifferences(Fold(ShapesOf(vs)), v, path);
      }
    } else {
      var v := BrokenRefusesOne(Fold(ShapesOf(vs)), ItemsOf(vs), path);
    }
  }

  // ---------------------------------------------------------------- which shapes merge to a whole one

  function NonNull(ss: seq<Shape>): seq<Shape> {
    if ss == [] then []
    else NonNull(ss[..|ss| - 1]) + if ss[|ss| - 1] == NULL then [] else [ss[|ss| - 1]]
  }

  predicate Uniform(ss: seq<Shape>) { forall s <- ss, t <- ss :: SameSort(s, t) }

  predicate IsMixed(s: Shape) { s.Scalar? && Mixed in s.kinds }

  predicate NoneMixed(ss: seq<Shape>) { forall s <- ss :: !IsMixed(s) }

  predicate AllMixed(ss: seq<Shape>) { forall s <- ss :: s == MIXED }

  /**
   * Shapes other than null merge to a whole one at the root: those of one sort if all of them or none are mixed;
   * those of more when the last is an object or a list, or is the first of another sort, or is mixed like those before.
   */
  predicate SettleHere(ss: seq<Shape>) {
    if Uniform(ss) then NoneMixed(ss) || AllMixed(ss)
    else
      var init, last := ss[..|ss| - 1], ss[|ss| - 1];
      !last.Scalar? || Uniform(init) || (last == MIXED && SettleHere(init))
  }

  /** What the shapes have one step further down. */
  function Column(ss: seq<Shape>, step: Step): seq<Shape> {
    if ss == [] then []
    else
      var last := ss[|ss| - 1];
      Column(ss[..|ss| - 1], step)
      + match step
        case Key(k) => if last.Fields? && k in last.fields then [last.fields[k]] else []
        case Item => if last.ListOf? && last.items != [] then [last.items[0]] else []
  }

  /** The shapes settle at a path that is reached through objects or lists in all of them. */
  predicate Settle(ss: seq<Shape>, path: Path)
    decreases path
  {
    var found := NonNull(ss);
    if path == [] then SettleHere(found) else Uniform(found) ==> Settle(Column(found, path[0]), path[1..])
  }

  lemma FoldSnoc(init: seq<Shape>, last: Shape)
    ensures Fold(init + [last]) == Merge(Fold(init), last)
  {
    assert (init + [last])[..|init|] == init;
  }

  lemma FoldNoneOrOne(s: Shape)
    ensures Fold([]) == NULL && Fold([s]) == s
  {
    assert [s][..0] == [];
    MergeNull(s);
  }

  lemma {:induction false} NonNullFolds(ss: seq<Shape>)
    requires AllCanonical(ss)
    ensures Fold(NonNull(ss)) == Fold(ss) && AllCanonical(NonNull(ss)) && NULL !in NonNull(ss)
  {
    hide Merge, Canonical, Fold;
    FoldNoneOrOne(NULL);
    if ss != [] {
      var init, last := ss[..|ss| - 1], ss[|ss| - 1];
      assert ss == init + [last];
      NonNullFolds(init);
      assert NonNull(init) + [] == NonNull(init);
      FoldSnoc(init, last);
      FoldSnoc(NonNull(init), last);
      MergeNull(Fold(init));
    }
  }

  lemma MergeMixedness(a: Shape, b: Shape)
    requires Canonical(a) && Canonical(b) && a.Scalar? && b.Scalar? && a != NULL && b != NULL
    ensures Merge(a, b).Scalar? && (IsMixed(Merge(a, b)) <==> IsMixed(a) || IsMixed(b))
    ensures Merge(a, b) == MIXED <==> a == MIXED && b == MIXED
  {
    MergeScalars(a, b);
    MixedKinds();
    CanonicalKinds(a.kinds, [Mixed]);
    CanonicalKinds(b.kinds, [Mixed]);
    CanonicalKinds(Merge(a, b).kinds, [Mixed]);
    assert forall k :: k in Merge(a, b).kinds <==> k in KindsOf(Merge(a, b).kinds);
    assert a.kinds[0] in KindsOf(a.kinds) && b.kinds[0] in KindsOf(b.kinds);
    hide Merge, Canonical;
  }

  lemma UniformSnoc(init: seq<Shape>, last: Shape)
    requires init != []
    ensures Uniform(init + [last]) <==> Uniform(init) && SameSort(init[0], last)
    ensures NoneMixed(init + [last]) <==> NoneMixed(init) && !IsMixed(last)
    ensures AllMixed(init + [last]) <==> AllMixed(init) && last == MIXED
  {
    assert init[0] in init + [last] && last in init + [last];
    assert forall s <- init :: s in init + [last];
  }

  /** Of one sort, the merge is of it; otherwise it is mixed. */
  lemma {:induction false} FoldSort(xs: seq<Shape>)
    requires xs != [] && AllCanonical(xs) && NULL !in xs
    ensures Canonical(Fold(xs)) && Fold(xs) != NULL
    ensures if Uniform(xs) then SameSort(xs[0], Fold(xs)) else IsMixed(Fold(xs))
    ensures Uniform(xs) && Fold(xs).Scalar? ==>
              (!IsMixed(Fold(xs)) <==> NoneMixed(xs)) && (Fold(xs) == MIXED <==> AllMixed(xs))
  {
    var init, last := xs[..|xs| - 1], xs[|xs| - 1];
    assert xs == init + [last];
    FoldNoneOrOne(last);
    if init != [] {
      hide Merge, Canonical, Fold, Uniform, NoneMixed, AllMixed;
      FoldSort(init);
      FoldSnoc(init, last);
      UniformSnoc(init, last);
      MergeOfSorts(Fold(init), last);
      MergeCanonical(Fold(init), last);
      if Fold(init).Scalar? && last.Scalar? {
        MergeMixedness(Fold(init), last);
      }
    }
  }

  lemma {:induction false} SettleHereIff(xs: seq<Shape>)
    requires xs != [] && AllCanonical(xs) && NULL !in xs
    ensures SettleHere(xs) <==> (IsMixed(Fold(xs)) ==> Fold(xs) == MIXED)
  {
    hide Merge, Canonical, Fold, Uniform, NoneMixed, AllMixed;
    var init, last := xs[..|xs| - 1], xs[|xs| - 1];
    assert xs == init + [last];
    FoldSort(xs);
    if Uniform(xs) {
      if !Fold(xs).Scalar? {
        NoScalarsNoneMixed(xs);
      }
    } else {
      OneIsUniform(last);
      FoldSort(init);
      FoldSnoc(init, last);
      UniformSnoc(init, last);
      MergeOfSorts(Fold(init), last);
      if Fold(init).Scalar? && last.Scalar? {
        MergeMixedness(Fold(init), last);
        SettleHereIff(init);
      }
    }
  }

  lemma OneIsUniform(s: Shape)
    ensures Uniform([]) && Uniform([s])
  {
  }

  lemma NoScalarsNoneMixed(xs: seq<Shape>)
    requires xs != [] && Uniform(xs) && !xs[0].Scalar?
    ensures NoneMixed(xs)
  {
    assert forall x <- xs :: SameSort(x, xs[0]);
  }

  lemma {:induction false} FieldsFold(xs: seq<Shape>, k: string)
    requires xs != [] && forall x <- xs :: x.Fields?
    ensures Fold(xs).Fields?
    ensures Field(Fold(xs).fields, k) == Fold(Column(xs, Key(k)))
    ensures k in Fold(xs).fields <==> Column(xs, Key(k)) != []
  {
    hide Merge, JoinFields, Fold;
    var init, last := xs[..|xs| - 1], xs[|xs| - 1];
    assert xs == init + [last];
    FoldNoneOrOne(last);
    FoldNoneOrOne(Field(last.fields, k));
    assert Column(init, Key(k)) + [] == Column(init, Key(k));
    assert [] + [Field(last.fields, k)] == [Field(last.fields, k)];
    if init != [] {
      FieldsFold(init, k);
      FoldSnoc(init, last);
      MergeOfFields(Fold(init).fields, last.fields);
      FieldOfJoin(Fold(init).fields, last.fields, k);
      FoldSnoc(Column(init, Key(k)), Field(last.fields, k));
      MergeNull(Fold(Column(init, Key(k))));
    }
  }

  function ItemOf(s: Shape): Shape
    requires s.ListOf?
  {
    if s.items == [] then NULL else s.items[0]
  }

  lemma MergeOfItems(a: Shape, b: Shape)
    requires a.ListOf? && b.ListOf? && |a.items| <= 1 && |b.items| <= 1
    ensures Merge(a, b).ListOf? && ItemOf(Merge(a, b)) == Merge(ItemOf(a), ItemOf(b))
    ensures Merge(a, b).items == [] <==> a.items == [] && b.items == []
    ensures |Merge(a, b).items| <= 1
  {
  }

  lemma {:induction false} ItemsFold(xs: seq<Shape>)
    requires xs != [] && forall x <- xs :: x.ListOf? && |x.items| <= 1
    ensures Fold(xs).ListOf? && |Fold(xs).items| <= 1
    ensures ItemOf(Fold(xs)) == Fold(Column(xs, Item))
    ensures Fold(xs).items != [] <==> Column(xs, Item) != []
  {
    hide Merge, Fold;
    var init, last := xs[..|xs| - 1], xs[|xs| - 1];
    assert xs == init + [last];
    FoldNoneOrOne(last);
    FoldNoneOrOne(ItemOf(last));
    assert Column(init, Item) + [] == Column(init, Item);
    assert [] + [ItemOf(last)] == [ItemOf(last)];
    if init != [] {
      ItemsFold(init);
      FoldSnoc(init, last);
      MergeOfItems(Fold(init), last);
      FoldSnoc(Column(init, Item), ItemOf(last));
      MergeNull(Fold(Column(init, Item)));
    }
  }

  lemma {:induction false} NothingSettles(path: Path)
    ensures Settle([], path)
    decreases path
  {
    if path != [] {
      NothingSettles(path[1..]);
    }
  }

  lemma {:induction false} NoColumn(xs: seq<Shape>, step: Step)
    requires forall x <- xs :: if step.Item? then !x.ListOf? else !x.Fields?
    ensures Column(xs, step) == []
  {
    if xs != [] {
      NoColumn(xs[..|xs| - 1], step);
    }
  }

  lemma {:induction false} ColumnCanonical(xs: seq<Shape>, step: Step)
    requires AllCanonical(xs)
    ensures AllCanonical(Column(xs, step))
  {
    if xs != [] {
      ColumnCanonical(xs[..|xs| - 1], step);
      assert Canonical(xs[|xs| - 1]);
      match step
      case Key(k) =>
      case Item =>
    }
  }

  ghost predicate SettleAll(ss: seq<Shape>) { forall path :: Settle(ss, path) }

  ghost predicate SettleBelow(xs: seq<Shape>) { forall step :: SettleAll(Column(xs, step)) }

  /** They settle everywhere exactly when they do here and, if of one sort, at every step further down. */
  lemma SettleAllIff(ss: seq<Shape>, xs: seq<Shape>)
    requires xs == NonNull(ss)
    ensures SettleAll(ss) <==> SettleHere(xs) && (Uniform(xs) ==> SettleBelow(xs))
  {
    hide SettleHere, Uniform, Column, SettleAll;
    if SettleAll(ss) {
      SettleAt(ss, []);
      forall step | Uniform(xs)
        ensures SettleAll(Column(xs, step))
      {
        SettleOneBelow(ss, step);
      }
    } else {
      UnsettledBelow(ss);
    }
  }

  lemma SettleAt(ss: seq<Shape>, path: Path)
    requires SettleAll(ss)
    ensures Settle(ss, path)
  {
  }

  lemma SettleOneBelow(ss: seq<Shape>, step: Step)
    requires SettleAll(ss) && Uniform(NonNull(ss))
    ensures SettleAll(Column(NonNull(ss), step))
  {
    hide Column, Uniform;
    forall path
      ensures Settle(Column(NonNull(ss), step), path)
    {
      assert ([step] + path)[1..] == path;
      assert Settle(ss, [step] + path);
    }
  }

  lemma UnsettledBelow(ss: seq<Shape>)
    requires !SettleAll(ss)
    ensures !SettleHere(NonNull(ss)) || (Uniform(NonNull(ss)) && !SettleBelow(NonNull(ss)))
  {
    hide Column, Uniform, SettleHere;
    var path :| !Settle(ss, path);
    if path != [] {
      assert !Settle(Column(NonNull(ss), path[0]), path[1..]);
      assert !SettleAll(Column(NonNull(ss), path[0]));
    }
  }

  /** One step further down the shape is whole, if it has anything there. */
  predicate WholeAt(s: Shape, step: Step) {
    match step
    case Key(k) => s.Fields? && k in s.fields ==> Whole(s.fields[k])
    case Item => s.ListOf? && s.items != [] ==> Whole(s.items[0])
  }

  ghost predicate WholeBelow(s: Shape) { forall step :: WholeAt(s, step) }

  lemma WholeBySteps(s: Shape)
    requires Canonical(s)
    ensures Whole(s) <==> (IsMixed(s) ==> s == MIXED) && WholeBelow(s)
  {
    if WholeBelow(s) {
      if s.Fields? {
        assert forall k <- s.fields :: WholeAt(s, Key(k));
      } else if s.ListOf? {
        assert WholeAt(s, Item);
      }
    }
  }

  /** Shapes merge to a whole one exactly when they settle at every path. */
  lemma {:induction false} WholeIff(ss: seq<Shape>)
    requires AllCanonical(ss)
    ensures Whole(Fold(ss)) <==> SettleAll(ss)
    decreases Fold(ss), 1
  {
    hide Merge, Canonical, Settle, SettleAll, SettleHere, SettleBelow, Column, NonNull, Whole, WholeBelow, Uniform;
    var xs := NonNull(ss);
    NonNullFolds(ss);
    SettleAllIff(ss, xs);
    FoldCanonical(ss);
    WholeBySteps(Fold(ss));
    if xs == [] {
      NothingWhole(xs);
    } else {
      FoldSort(xs);
      SettleHereIff(xs);
      hide Fold;
      if Uniform(xs) {
        WholeBelowIff(xs);
      } else {
        NothingBelow(Fold(ss));
      }
    }
  }

  lemma {:induction false} WholeBelowIff(xs: seq<Shape>)
    requires xs != [] && AllCanonical(xs) && Uniform(xs) && SameSort(xs[0], Fold(xs))
    ensures WholeBelow(Fold(xs)) <==> SettleBelow(xs)
    decreases Fold(xs), 0, 1
  {
    hide Merge, Canonical, SettleAll, Column, WholeAt, Fold, Uniform, AllCanonical;
    forall step
      ensures WholeAt(Fold(xs), step) <==> SettleAll(Column(xs, step))
    {
      WholeStepIff(xs, step);
    }
  }

  lemma NothingBelow(s: Shape)
    requires s.Scalar?
    ensures WholeBelow(s)
  {
  }

  lemma NothingWhole(xs: seq<Shape>)
    requires xs == []
    ensures SettleHere(xs) && SettleBelow(xs) && Whole(Fold(xs))
  {
    forall path { NothingSettles(path); }
  }

  lemma {:induction false} WholeStepIff(xs: seq<Shape>, step: Step)
    requires xs != [] && AllCanonical(xs) && Uniform(xs) && SameSort(xs[0], Fold(xs))
    ensures WholeAt(Fold(xs), step) <==> SettleAll(Column(xs, step))
    decreases Fold(xs), 0, 0
  {
    hide Merge, Canonical, Settle, SettleAll, Column, Whole;
    ColumnCanonical(xs, step);
    assert forall x <- xs :: SameSort(x, xs[0]);
    assert forall x <- xs :: x.ListOf? ==> |x.items| <= 1 by { ItemsOfCanonical(xs); }
    match step
    case Key(k) =>
      if xs[0].Fields? {
        FieldsFold(xs, k);
        hide Fold;
        if k in Fold(xs).fields {
          WholeIff(Column(xs, step));
        } else {
          NothingSettlesAll(Column(xs, step));
        }
      } else {
        NoColumn(xs, step);
        NothingSettlesAll(Column(xs, step));
      }
    case Item =>
      if xs[0].ListOf? {
        ItemsFold(xs);
        hide Fold;
        if Fold(xs).items != [] {
          WholeIff(Column(xs, step));
        } else {
          NothingSettlesAll(Column(xs, step));
        }
      } else {
        NoColumn(xs, step);
        NothingSettlesAll(Column(xs, step));
      }
  }

  lemma ItemsOfCanonical(xs: seq<Shape>)
    requires AllCanonical(xs)
    ensures forall x <- xs :: x.ListOf? ==> |x.items| <= 1
  {
  }

  lemma NothingSettlesAll(xs: seq<Shape>)
    requires xs == []
    ensures SettleAll(xs)
  {
    forall path { NothingSettles(path); }
  }

  /** A recording admits its values exactly when their shapes settle at every path, as they come. */
  lemma RecordingAdmitsIffSettled(vs: seq<Json>, path: Path)
    ensures (forall v <- vs :: Differences(v, Fold(ShapesOf(vs)), path) == {}) <==> SettleAll(ShapesOf(vs))
  {
    hide Differences, Fold, Whole, SettleAll;
    ShapesCanonical(vs);
    RecordingAdmitsIff(vs, path);
    WholeIff(ShapesOf(vs));
  }

  /** What agreeing values show is nowhere mixed. */
  lemma {:induction false} AgreeingIsWhole(s: Shape, vs: set<Json>)
    requires Shown(s, vs) && OpenMetadata(s) && AgreeIn(vs)
    ensures Whole(s)
    decreases s
  {
    match s
    case Scalar(_) => AgreeingDoNotMix(vs);
    case ListOf(items) =>
      AgreeingItems(vs);
      forall i | i in items
        ensures Whole(i)
      {
        AgreeingIsWhole(i, ItemsIn(vs));
      }
    case Fields(fields) =>
      forall k | k in fields && k != "metadata"
        ensures Whole(fields[k])
      {
        AgreeingFields(vs, k);
        AgreeingIsWhole(fields[k], FieldsIn(vs, k));
      }
  }

  /** A recording folded from agreeing values reports no difference for any of them. */
  lemma RecordingAdmitsItsValues(vs: seq<Json>, v: Json, path: Path)
    requires AllAgree(vs) && v in vs
    ensures Differences(v, Fold(ShapesOf(vs)), path) == {}
  {
    hide Differences, Fold, Whole, Shown, OpenMetadata;
    FoldParts(vs);
    AgreeingIsWhole(Fold(ShapesOf(vs)), ItemsOf(vs));
    RecordingAdmitsIff(vs, path);
  }

  lemma MixedWithText()
    ensures ShapeOf(List([Int(1), Obj(map[]), Str("a")])) == ListOf([Scalar([Mixed, Text])])
  {
    var items := [Int(1), Obj(map[]), Str("a")];
    assert items[..2] == [Int(1), Obj(map[])];
    NumberWithObject();
    MixedKinds();
    assert KindsOf([Mixed]) + KindsOf([Text]) == {Mixed, Text};
    assert Sorted({Mixed, Text}) == [Mixed, Text];
    assert ItemShape(items) == Merge(MIXED, Scalar([Text]));
  }

  /** Values need not agree for that: of a number and an object, the recording is mixed and admits both. */
  lemma NumberAndObjectAdmitted()
    ensures var vs := [Int(1), Obj(map["a" := Int(2)])];
            !AllAgree(vs) && forall v <- vs :: Differences(v, Fold(ShapesOf(vs)), []) == {}
  {
    var vs := [Int(1), Obj(map["a" := Int(2)])];
    assert vs[..1] == [Int(1)] && [Int(1)][..0] == [];
    assert ItemShape(vs) == MIXED;
    ItemShapeFolds(vs);
    RecordingAdmitsIff(vs, []);
    if AllAgree(vs) {
      assert Agree(vs[0], vs[1]);
      AgreeAtRoot(vs[0], vs[1]);
      assert false;
    }
  }

  lemma NumberWithObject()
    ensures ItemShape([Int(1), Obj(map[])]) == MIXED
  {
    assert [Int(1), Obj(map[])][..1] == [Int(1)] && [Int(1)][..0] == [];
    assert ItemShape([Int(1)]) == Scalar([Integer]);
  }

  /** Without agreement it may: the list of a number, an object and a text rejects its own items. */
  lemma DisagreeingListRejectsItself()
    ensures var v := List([Int(1), Obj(map[]), Str("a")]);
            Differences(v, ShapeOf(v), []) != {}
  {
    hide ShapeOf;
    MixedWithText();
    var v := List([Int(1), Obj(map[]), Str("a")]);
    var recorded := Scalar([Mixed, Text]);
    var problem := KindSent([] + [Item], recorded.kinds, AKind(Integer));
    assert recorded != MIXED && recorded != NULL;
    assert problem in Differences(v.items[0], recorded, [] + [Item]);
    assert problem in Differences(v, ListOf([recorded]), []);
  }

  // ---------------------------------------------------------------- what a recording lost

  datatype Loss =
    | WasObject(path: Path, now: Shape)
    | FieldGone(path: Path)
    | WasList(path: Path, now: Shape)
    | WasScalar(path: Path, was: seq<Kind>)
    | KindsGone(path: Path, lost: set<Kind>)

  /** What is in the committed recording and missing from the latest. */
  function Removed(committed: Shape, latest: Shape, path: Path): set<Loss>
    decreases committed, 1
  {
    if latest == NULL then {}
    else
      match committed
      case Fields(fields) =>
        if !latest.Fields? then {WasObject(path, latest)}
        else
          set k, l | k in fields && l in FieldLosses(committed, k, latest.fields, path) :: l
      case ListOf(items) =>
        if !latest.ListOf? then {WasList(path, latest)}
        else if items != [] && latest.items != [] then Removed(items[0], latest.items[0], path + [Item])
        else {}
      case Scalar(kinds) =>
        if !latest.Scalar? then {WasScalar(path, kinds)}
        else
          var lost := KindsOf(kinds) - KindsOf(latest.kinds) - {NullKind};
          if lost == {} then {} else {KindsGone(path, lost)}
  }

  function FieldLosses(committed: Shape, key: string, latest: map<string, Shape>, path: Path): set<Loss>
    requires committed.Fields? && key in committed.fields
    decreases committed, 0
  {
    if key in latest then Removed(committed.fields[key], latest[key], path + [Key(key)])
    else {FieldGone(path + [Key(key)])}
  }

  /** The shape that stands at a path of another. */
  function At(s: Shape, path: Path): Option<Shape>
    decreases path
  {
    if path == [] then Some(s)
    else
      match path[0]
      case Key(k) => if s.Fields? && k in s.fields then At(s.fields[k], path[1..]) else None
      case Item => if s.ListOf? && s.items != [] then At(s.items[0], path[1..]) else None
  }

  /** At this path a committed null has become an object or a list. */
  predicate NullOpened(committed: Shape, latest: Shape, path: Path) {
    At(committed, path) == Some(NULL) && At(latest, path).Some? && !At(latest, path).value.Scalar?
  }

  ghost predicate SomeNullOpened(committed: Shape, latest: Shape) {
    exists p :: NullOpened(committed, latest, p)
  }

  /** Merging more into a recording loses nothing, except where a null becomes an object or a list. */
  lemma {:induction false} RemovedAfterMergeIff(s: Shape, t: Shape, path: Path)
    requires Canonical(s) && Canonical(t) && Compatible(s, t)
    ensures Removed(s, Merge(s, t), path) == {} <==> !SomeNullOpened(s, Merge(s, t))
    decreases s, 1
  {
    match s
    case Fields(_) => RemovedFieldsIff(s, t, path);
    case ListOf(_) => RemovedItemsIff(s, t, path);
    case Scalar(_) => RemovedKindsIff(s, t, path);
  }

  lemma RemovedKindsIff(s: Shape, t: Shape, path: Path)
    requires s.Scalar? && Canonical(s) && Canonical(t) && Compatible(s, t)
    ensures Removed(s, Merge(s, t), path) == {} <==> !SomeNullOpened(s, Merge(s, t))
  {
    if s == NULL {
      hide Merge, Canonical, Compatible;
      MergeNull(t);
      NullLoses(t, path);
    } else {
      ScalarMergeLosesNothing(s, t, path);
      NothingOpens(s, Merge(s, t));
    }
  }

  lemma NothingOpens(s: Shape, latest: Shape)
    requires s.Scalar? && s != NULL
    ensures !SomeNullOpened(s, latest)
  {
    assert forall p :: !NullOpened(s, latest, p);
  }

  lemma NullLoses(latest: Shape, path: Path)
    ensures Removed(NULL, latest, path) == {} <==> latest.Scalar?
    ensures SomeNullOpened(NULL, latest) <==> !latest.Scalar?
  {
    MixedKinds();
    assert NullOpened(NULL, latest, []) <==> !latest.Scalar?;
    assert forall p :: p != [] ==> !NullOpened(NULL, latest, p);
  }

  lemma ScalarMergeLosesNothing(s: Shape, t: Shape, path: Path)
    requires s.Scalar? && s != NULL && Canonical(s) && Canonical(t) && Compatible(s, t)
    ensures Removed(s, Merge(s, t), path) == {}
  {
    if t == NULL {
      assert KindsOf(s.kinds) - KindsOf(s.kinds) - {NullKind} == {};
    } else {
      MergeScalars(s, t);
    }
  }

  lemma {:induction false} RemovedItemsIff(s: Shape, t: Shape, path: Path)
    requires s.ListOf? && Canonical(s) && Canonical(t) && Compatible(s, t)
    ensures Removed(s, Merge(s, t), path) == {} <==> !SomeNullOpened(s, Merge(s, t))
    decreases s, 0
  {
    var m := Merge(s, t);
    MixedKinds();
    if s.items == [] {
      assert forall p :: p != [] ==> At(s, p) == None;
    } else {
      var u := if t.ListOf? && t.items != [] then t.items[0] else NULL;
      assert m.ListOf? && m.items != [] && m.items[0] == Merge(s.items[0], u);
      RemovedAfterMergeIff(s.items[0], u, path + [Item]);
      NullOpenedAt(s, m, Item, s.items[0], m.items[0]);
      forall p | NullOpened(s, m, p)
        ensures SomeNullOpened(s.items[0], m.items[0])
      {
        assert p != [] && p[0] == Item;
        assert NullOpened(s.items[0], m.items[0], p[1..]);
      }
    }
  }

  /** A null that opens below a child opens below its parent. */
  lemma NullOpenedAt(s: Shape, m: Shape, step: Step, child: Shape, latest: Shape)
    requires forall p :: At(s, [step] + p) == At(child, p) && At(m, [step] + p) == At(latest, p)
    ensures SomeNullOpened(child, latest) ==> SomeNullOpened(s, m)
  {
    if SomeNullOpened(child, latest) {
      var p: Path :| NullOpened(child, latest, p);
      assert NullOpened(s, m, [step] + p);
    }
  }

  lemma {:induction false} RemovedFieldsIff(s: Shape, t: Shape, path: Path)
    requires s.Fields? && Canonical(s) && Canonical(t) && Compatible(s, t)
    ensures Removed(s, Merge(s, t), path) == {} <==> !SomeNullOpened(s, Merge(s, t))
    decreases s, 0
  {
    var m := Merge(s, t);
    forall k | k in s.fields
      ensures m.Fields? && k in m.fields
      ensures FieldLosses(s, k, m.fields, path) == {} <==> !SomeNullOpened(s.fields[k], m.fields[k])
      ensures SomeNullOpened(s.fields[k], m.fields[k]) ==> SomeNullOpened(s, m)
    {
      var u := if t.Fields? then Field(t.fields, k) else NULL;
      MixedKinds();
      assert m.Fields? && m.fields[k] == Merge(s.fields[k], u);
      RemovedAfterMergeIff(s.fields[k], u, path + [Key(k)]);
      AtField(s, k);
      AtField(m, k);
      NullOpenedAt(s, m, Key(k), s.fields[k], m.fields[k]);
    }
    NoFieldLosses(s, m, path);
    if SomeNullOpened(s, m) {
      var p: Path :| NullOpened(s, m, p);
      assert p != [] && p[0].Key? && p[0].key in s.fields;
      assert NullOpened(s.fields[p[0].key], m.fields[p[0].key], p[1..]);
    }
  }

  lemma AtField(s: Shape, k: string)
    requires s.Fields? && k in s.fields
    ensures forall p :: At(s, [Key(k)] + p) == At(s.fields[k], p)
  {
    forall p
      ensures At(s, [Key(k)] + p) == At(s.fields[k], p)
    {
      assert ([Key(k)] + p)[1..] == p;
    }
  }

  lemma NoFieldLosses(s: Shape, m: Shape, path: Path)
    requires s.Fields? && (s.fields != map[] ==> m.Fields?) && m != NULL
    requires m.Fields?
    ensures Removed(s, m, path) == {} <==> forall k <- s.fields :: FieldLosses(s, k, m.fields, path) == {}
  {
    forall k | k in s.fields && FieldLosses(s, k, m.fields, path) != {}
      ensures Removed(s, m, path) != {}
    {
      var l :| l in FieldLosses(s, k, m.fields, path);
      assert l in Removed(s, m, path);
    }
  }

  // ---------------------------------------------------------------- any two recordings compared

  function Child(s: Shape, step: Step): Option<Shape> {
    match step
    case Key(k) => if s.Fields? && k in s.fields then Some(s.fields[k]) else None
    case Item => if s.ListOf? && s.items != [] then Some(s.items[0]) else None
  }

  lemma AtChild(s: Shape, step: Step, p: Path)
    ensures At(s, [step] + p) == if Child(s, step).Some? then At(Child(s, step).value, p) else None
  {
    assert ([step] + p)[1..] == p;
  }

  /** On the way to the path the recording is null or an empty list, so nothing can be missed there. */
  ghost predicate Shielded(t: Shape, path: Path)
    decreases path
  {
    path != []
    && (t == NULL || t == ListOf([])
        || (Child(t, path[0]).Some? && Shielded(Child(t, path[0]).value, path[1..])))
  }

  /** Null, or of the same sort, and a scalar with every kind besides null. */
  predicate KeepsShape(was: Shape, now: Shape) {
    now == NULL
    || (SameSort(was, now) && (was.Scalar? ==> forall k <- was.kinds :: k == NullKind || k in now.kinds))
  }

  predicate KeptAt(s: Shape, t: Shape, path: Path) {
    At(s, path).Some? && At(t, path).Some? && KeepsShape(At(s, path).value, At(t, path).value)
  }

  /** Whatever stood at a path still does. */
  ghost predicate AllKept(s: Shape, t: Shape) {
    forall path :: At(s, path).Some? && !Shielded(t, path) ==> KeptAt(s, t, path)
  }

  ghost predicate ChildrenKept(s: Shape, t: Shape) {
    forall step :: Child(s, step).Some? ==>
      Child(t, step).Some? && AllKept(Child(s, step).value, Child(t, step).value)
  }

  lemma ChildKept(s: Shape, t: Shape, step: Step)
    requires AllKept(s, t) && t != NULL && t != ListOf([]) && Child(s, step).Some?
    ensures Child(t, step).Some? && AllKept(Child(s, step).value, Child(t, step).value)
  {
    AtChild(s, step, []);
    AtChild(t, step, []);
    assert [step] + [] == [step] && [step][1..] == [];
    assert At(s, [step]).Some? && !Shielded(t, [step]);
    assert KeptAt(s, t, [step]);
    forall path | At(Child(s, step).value, path).Some? && !Shielded(Child(t, step).value, path)
      ensures KeptAt(Child(s, step).value, Child(t, step).value, path)
    {
      AtChild(s, step, path);
      AtChild(t, step, path);
      assert ([step] + path)[1..] == path;
      assert !Shielded(t, [step] + path);
      assert KeptAt(s, t, [step] + path);
    }
  }

  lemma AllKeptParts(s: Shape, t: Shape)
    ensures AllKept(s, t) <==> KeepsShape(s, t) && (t != NULL && t != ListOf([]) ==> ChildrenKept(s, t))
  {
    hide KeepsShape;
    if AllKept(s, t) {
      assert KeptAt(s, t, []);
      forall step | t != NULL && t != ListOf([]) && Child(s, step).Some?
        ensures Child(t, step).Some? && AllKept(Child(s, step).value, Child(t, step).value)
      {
        ChildKept(s, t, step);
      }
    }
    if KeepsShape(s, t) && (t != NULL && t != ListOf([]) ==> ChildrenKept(s, t)) {
      forall path | At(s, path).Some? && !Shielded(t, path)
        ensures KeptAt(s, t, path)
      {
        if path != [] {
          PathKept(s, t, path);
        }
      }
    }
  }

  lemma PathKept(s: Shape, t: Shape, path: Path)
    requires path != [] && At(s, path).Some? && !Shielded(t, path) && ChildrenKept(s, t)
    ensures KeptAt(s, t, path)
  {
    var step, rest := path[0], path[1..];
    assert path == [step] + rest;
    AtChild(s, step, rest);
    AtChild(t, step, rest);
    assert AllKept(Child(s, step).value, Child(t, step).value);
    assert KeptAt(Child(s, step).value, Child(t, step).value, rest);
  }

  /** Nothing is reported as lost exactly when at every path what stood there still does, as far as that can be told. */
  lemma {:induction false} RemovedIff(s: Shape, t: Shape, path: Path)
    ensures Removed(s, t, path) == {} <==> AllKept(s, t)
    decreases s
  {
    hide AllKept;
    AllKeptParts(s, t);
    if t != NULL {
      match s
      case Fields(fields) =>
        if t.Fields? {
          forall k | k in fields
            ensures FieldLosses(s, k, t.fields, path) == {} <==> k in t.fields && AllKept(fields[k], t.fields[k])
          {
            if k in t.fields {
              RemovedIff(fields[k], t.fields[k], path + [Key(k)]);
            }
          }
          NoFieldLosses(s, t, path);
          FieldsKept(s, t);
        }
      case ListOf(items) =>
        if t.ListOf? && items != [] && t.items != [] {
          RemovedIff(items[0], t.items[0], path + [Item]);
        }
        if t.ListOf? {
          ItemsKept(s, t);
        }
      case Scalar(kinds) =>
        if t.Scalar? {
          KindsKept(kinds, t.kinds);
        }
    }
  }

  lemma FieldsKept(s: Shape, t: Shape)
    requires s.Fields? && t.Fields?
    ensures ChildrenKept(s, t) <==> forall k <- s.fields :: k in t.fields && AllKept(s.fields[k], t.fields[k])
  {
    hide AllKept;
    if ChildrenKept(s, t) {
      forall k | k in s.fields
        ensures k in t.fields && AllKept(s.fields[k], t.fields[k])
      {
        assert Child(s, Key(k)).Some?;
      }
    }
  }

  lemma ItemsKept(s: Shape, t: Shape)
    requires s.ListOf? && t.ListOf?
    ensures t != ListOf([]) ==> (ChildrenKept(s, t) <==> s.items == [] || AllKept(s.items[0], t.items[0]))
  {
    hide AllKept;
    if ChildrenKept(s, t) && s.items != [] {
      assert Child(s, Item).Some?;
    }
  }

  lemma KindsKept(kinds: seq<Kind>, now: seq<Kind>)
    ensures KindsOf(kinds) - KindsOf(now) - {NullKind} == {} <==> forall k <- kinds :: k == NullKind || k in now
  {
    assert forall k <- kinds :: k in KindsOf(kinds);
    if KindsOf(kinds) - KindsOf(now) - {NullKind} == {} {
      forall k | k in kinds
        ensures k == NullKind || k in now
      {
        assert k !in KindsOf(kinds) - KindsOf(now) - {NullKind};
      }
    }
  }

  /** What a loss says of a path, in terms of what stood there and what does now. */
  ghost predicate Says(l: Loss, s: Shape, t: Shape, at: Path, path: Path)
    requires At(s, path).Some?
  {
    var was, now := At(s, path).value, At(t, path);
    match l
    case FieldGone(q) => q == at + path && now == None
    case WasObject(q, shape) => q == at + path && was.Fields? && now == Some(shape) && shape != NULL && !shape.Fields?
    case WasList(q, shape) => q == at + path && was.ListOf? && now == Some(shape) && shape != NULL && !shape.ListOf?
    case WasScalar(q, kinds) => q == at + path && was == Scalar(kinds) && now.Some? && !now.value.Scalar?
    case KindsGone(q, lost) =>
      q == at + path && was.Scalar? && now.Some? && now.value.Scalar? && lost != {}
      && forall k :: k in lost <==> k in was.kinds && k !in now.value.kinds && k != NullKind
  }

  /** Every loss reported is of a path, and says of it what is so. */
  lemma {:induction false} LossesAreSo(s: Shape, t: Shape, at: Path, l: Loss) returns (path: Path)
    requires l in Removed(s, t, at)
    ensures At(s, path).Some? && !Shielded(t, path) && Says(l, s, t, at, path)
    decreases s
  {
    path := [];
    if s.Fields? && t.Fields? {
      var k :| k in s.fields && l in FieldLosses(s, k, t.fields, at);
      if k in t.fields {
        var rest := LossesAreSo(s.fields[k], t.fields[k], at + [Key(k)], l);
        path := [Key(k)] + rest;
        SaysBelow(l, s, t, at, Key(k), rest);
      } else {
        path := [Key(k)];
        assert [Key(k)][1..] == [];
      }
    } else if s.ListOf? && t.ListOf? {
      var rest := LossesAreSo(s.items[0], t.items[0], at + [Item], l);
      path := [Item] + rest;
      SaysBelow(l, s, t, at, Item, rest);
    } else {
      assert at + [] == at;
    }
  }

  lemma SaysBelow(l: Loss, s: Shape, t: Shape, at: Path, step: Step, rest: Path)
    requires Child(s, step).Some? && Child(t, step).Some? && At(Child(s, step).value, rest).Some?
    requires !Shielded(Child(t, step).value, rest) && Says(l, Child(s, step).value, Child(t, step).value, at + [step], rest)
    ensures At(s, [step] + rest).Some? && !Shielded(t, [step] + rest) && Says(l, s, t, at, [step] + rest)
  {
    AtChild(s, step, rest);
    AtChild(t, step, rest);
    assert ([step] + rest)[1..] == rest;
    assert at + [step] + rest == at + ([step] + rest);
    assert t != NULL && t != ListOf([]);
  }

  /** A path where something else stands, or where a field is gone from an object that still stands. */
  ghost predicate Lost(s: Shape, t: Shape, path: Path) {
    At(s, path).Some? && !Shielded(t, path)
    && if At(t, path).Some? then !KeepsShape(At(s, path).value, At(t, path).value)
       else path != [] && path[|path| - 1].Key? && At(t, path[..|path| - 1]).Some? && At(t, path[..|path| - 1]).value.Fields?
  }

  /** Every such path is reported. */
  lemma {:induction false} LossIsReported(s: Shape, t: Shape, at: Path, path: Path) returns (l: Loss)
    requires Lost(s, t, path)
    ensures l in Removed(s, t, at) && Says(l, s, t, at, path)
    decreases path
  {
    if path == [] {
      assert at + [] == at;
      l := match s
        case Fields(_) => WasObject(at, t)
        case ListOf(_) => WasList(at, t)
        case Scalar(kinds) =>
          if t.Scalar? then KindsGone(at, KindsOf(kinds) - KindsOf(t.kinds) - {NullKind}) else WasScalar(at, kinds);
      if s.Scalar? && t.Scalar? {
        KindsKept(s.kinds, t.kinds);
      }
    } else {
      var step, rest := path[0], path[1..];
      assert path == [step] + rest;
      AtChild(s, step, rest);
      AtChild(t, step, rest);
      if Child(t, step).Some? {
        LostBelow(s, t, step, rest);
        l := LossIsReported(Child(s, step).value, Child(t, step).value, at + [step], rest);
        SaysBelow(l, s, t, at, step, rest);
        ChildReported(l, s, t, at, step);
      } else {
        GoneHere(s, t, path);
        l := FieldGone(at + path);
        assert path == [step];
        assert l in FieldLosses(s, step.key, t.fields, at);
        assert l in Removed(s, t, at);
      }
    }
  }

  lemma LostBelow(s: Shape, t: Shape, step: Step, rest: Path)
    requires Lost(s, t, [step] + rest) && Child(t, step).Some?
    ensures Child(s, step).Some? && Lost(Child(s, step).value, Child(t, step).value, rest)
  {
    var path := [step] + rest;
    assert path[1..] == rest;
    AtChild(s, step, rest);
    AtChild(t, step, rest);
    if At(t, path) == None {
      if rest != [] {
        assert path[..|path| - 1] == [step] + rest[..|rest| - 1];
        AtChild(t, step, rest[..|rest| - 1]);
      }
    }
  }

  lemma GoneHere(s: Shape, t: Shape, path: Path)
    requires path != [] && Lost(s, t, path) && Child(t, path[0]) == None
    ensures |path| == 1 && path[0].Key? && s.Fields? && path[0].key in s.fields && t.Fields? && path[0].key !in t.fields
  {
    var step, rest := path[0], path[1..];
    assert path == [step] + rest;
    AtChild(s, step, rest);
    AtChild(t, step, rest);
    if rest == [] {
      assert path[..0] == [];
    }
  }

  lemma ChildReported(l: Loss, s: Shape, t: Shape, at: Path, step: Step)
    requires Child(s, step).Some? && Child(t, step).Some? && t != NULL
    requires l in Removed(Child(s, step).value, Child(t, step).value, at + [step])
    ensures l in Removed(s, t, at)
  {
    if step.Key? {
      assert l in FieldLosses(s, step.key, t.fields, at);
    }
  }

  // ---------------------------------------------------------------- runs of the recorder

  /** An event type and the object it carried. */
  datatype Event = Event(kind: string, obj: Json)

  function AfterRecord(stored: map<string, Shape>, e: Event): map<string, Shape> {
    stored[e.kind := Merge(Field(stored, e.kind), ShapeOf(e.obj))]
  }

  /** What is stored after a run of events, from an empty folder. */
  function Recorded(events: seq<Event>): map<string, Shape> {
    if events == [] then map[] else AfterRecord(Recorded(events[..|events| - 1]), events[|events| - 1])
  }

  function OfKind(events: seq<Event>, kind: string): seq<Json> {
    if events == [] then []
    else OfKind(events[..|events| - 1], kind)
         + if events[|events| - 1].kind == kind then [events[|events| - 1].obj] else []
  }

  lemma NoShapes()
    ensures Fold([]) == NULL
  {
  }

  /** The recording of a type is the fold of that type's own objects, whatever came between. */
  lemma {:induction false} RunFolds(events: seq<Event>, kind: string)
    ensures kind in Recorded(events) <==> OfKind(events, kind) != []
    ensures Field(Recorded(events), kind) == Fold(ShapesOf(OfKind(events, kind)))
    decreases |events|
  {
    hide Merge, ShapeOf, Fold;
    if events == [] {
      assert ShapesOf([]) == [];
      NoShapes();
    } else {
      var init, last := events[..|events| - 1], events[|events| - 1];
      RunFolds(init, kind);
      FoldOneMore(OfKind(init, kind), last.obj);
      assert OfKind(init, kind) + [] == OfKind(init, kind);
    }
  }

  lemma {:induction false} OfKindHolds(events: seq<Event>, i: nat)
    requires i < |events|
    ensures events[i].obj in OfKind(events, events[i].kind)
    decreases |events|
  {
    if i < |events| - 1 {
      OfKindHolds(events[..|events| - 1], i);
    }
  }

  /** After any run whose objects agree within each type, no recorded event differs from its recording. */
  lemma RunAdmitsItsEvents(events: seq<Event>, i: nat, path: Path)
    requires i < |events| && AllAgree(OfKind(events, events[i].kind))
    ensures events[i].kind in Recorded(events)
    ensures Differences(events[i].obj, Recorded(events)[events[i].kind], path) == {}
  {
    hide Differences, Recorded, OfKind, AllAgree, Fold;
    OfKindHolds(events, i);
    RunFolds(events, events[i].kind);
    RecordingAdmitsItsValues(OfKind(events, events[i].kind), events[i].obj, path);
  }

  /** A type's recording reports no difference for any object recorded of that type exactly when it is whole. */
  lemma RunAdmitsIff(events: seq<Event>, kind: string, path: Path)
    requires kind in Recorded(events)
    ensures (forall v <- OfKind(events, kind) :: Differences(v, Recorded(events)[kind], path) == {})
       <==> Whole(Recorded(events)[kind])
  {
    hide Differences, Recorded, OfKind, Whole, Fold;
    RunFolds(events, kind);
    RecordingAdmitsIff(OfKind(events, kind), path);
  }

  /** The recordings of a folder, by event type. */
  class Recordings {
    var stored: map<string, Shape>

    /** All events recorded so far. */
    ghost var seen: seq<Event>

    constructor ()
      ensures Valid() && seen == []
    {
      stored, seen := map[], [];
    }

    ghost predicate Valid()
      reads this
    {
      stored == Recorded(seen)
    }

    /**
     * Each recording is the fold of its own type's objects, and admits all of them exactly when it is whole; another
     * type's recording stays as it is.
     */
    method Record(e: Event)
      requires Valid()
      modifies this
      ensures Valid() && seen == old(seen) + [e]
      ensures forall kind :: kind in stored <==> kind == e.kind || kind in old(stored)
      ensures forall kind <- stored :: kind != e.kind ==> stored[kind] == old(stored)[kind]
      ensures forall kind <- stored ::
                stored[kind] == Fold(ShapesOf(OfKind(seen, kind)))
                && (Whole(stored[kind]) <==> forall v <- OfKind(seen, kind) :: Differences(v, stored[kind], []) == {})
    {
      hide Differences, OfKind, Whole, Fold, ShapeOf, Merge;
      assert (seen + [e])[..|seen|] == seen;
      var latest := ShapeOf(e.obj);
      MergeNull(latest);
      stored := stored[e.kind := if e.kind in stored then Merge(stored[e.kind], latest) else latest];
      seen := seen + [e];
      forall kind | kind in stored
        ensures stored[kind] == Fold(ShapesOf(OfKind(seen, kind)))
        ensures Whole(stored[kind]) <==> forall v <- OfKind(seen, kind) :: Differences(v, stored[kind], []) == {}
      {
        RunFolds(seen, kind);
        RunAdmitsIff(seen, kind, []);
      }
    }
  }
}

/**
 The key under which repeated tool calls are recognised: the tool's name and its arguments with object keys
 sorted at every depth. Objects keep insertion order, so two spellings of one value are different trees here;
 the JSON text of a tree is a parameter.
 */
module CallKeys {

  datatype Field = Field(key: string, value: Json)

  datatype Json =
    | Null
    | Bool(b: bool)
    | Number(literal: string)
    | Text(text: string)
    | Array(items: seq<Json>)
    | Object(fields: seq<Field>)

  /** No object holds a key twice. */
  predicate WellFormed(v: Json) {
    match v
    case Array(items) => forall i | 0 <= i < |items| :: WellFormed(items[i])
    case Object(fields) =>
      && (forall i, j | 0 <= i < j < |fields| :: fields[i].key != fields[j].key)
      && (forall i | 0 <= i < |fields| :: WellFormed(fields[i].value))
    case _ => true
  }

  /** Equal as nested unordered objects. */
  predicate SameValue(a: Json, b: Json)
    decreases a, 0
  {
    match (a, b)
    case (Array(xs), Array(ys)) => |xs| == |ys| && forall i | 0 <= i < |xs| :: SameValue(xs[i], ys[i])
    case (Object(xs), Object(ys)) =>
      && (forall i | 0 <= i < |xs| :: InRight(xs[i], ys))
      && (forall j | 0 <= j < |ys| :: InLeft(xs, ys[j]))
    case _ => a == b
  }

  predicate SameField(x: Field, y: Field)
    decreases x, 0
  {
    x.key == y.key && SameValue(x.value, y.value)
  }

  predicate InRight(x: Field, ys: seq<Field>)
    decreases x, 1
  {
    exists j | 0 <= j < |ys| :: SameField(x, ys[j])
  }

  predicate InLeft(xs: seq<Field>, y: Field)
    decreases xs, 1
  {
    exists i | 0 <= i < |xs| :: SameField(xs[i], y)
  }

  // ----- the order of keys -----

  predicate Less(a: string, b: string) {
    b != [] && (a == [] || a[0] < b[0] || (a[0] == b[0] && Less(a[1..], b[1..])))
  }

  lemma {:induction false} LessTotal(a: string, b: string)
    ensures Less(a, b) || a == b || Less(b, a)
    ensures !(Less(a, b) && Less(b, a)) && !Less(a, a)
  {
    if a != [] && b != [] && a[0] == b[0] {
      LessTotal(a[1..], b[1..]);
      assert a == [a[0]] + a[1..] && b == [b[0]] + b[1..];
    }
    if a != [] {
      LessTotal(a[1..], a[1..]);
    }
  }

  lemma {:induction false} LessTransitive(a: string, b: string, c: string)
    requires Less(a, b) && Less(b, c)
    ensures Less(a, c)
  {
    if a != [] && a[0] == b[0] == c[0] {
      LessTransitive(a[1..], b[1..], c[1..]);
    }
  }

  predicate Sorted(fields: seq<Field>) {
    forall i, j | 0 <= i < j < |fields| :: Less(fields[i].key, fields[j].key)
  }

  // ----- the canonical tree -----

  function Insert(f: Field, fields: seq<Field>): seq<Field> {
    if fields == [] || Less(f.key, fields[0].key) then [f] + fields else [fields[0]] + Insert(f, fields[1..])
  }

  function Canonical(v: Json): Json
    decreases v
  {
    match v
    case Array(items) => Array(seq(|items|, i requires 0 <= i < |items| => Canonical(items[i])))
    case Object(fields) => Object(CanonicalFields(fields))
    case _ => v
  }

  function CanonicalFields(fields: seq<Field>): seq<Field>
    decreases fields
  {
    if fields == [] then [] else Insert(CanonicalField(fields[0]), CanonicalFields(fields[1..]))
  }

  function CanonicalField(f: Field): Field
    decreases f
  {
    Field(f.key, Canonical(f.value))
  }

  lemma {:induction false} InsertKeeps(f: Field, fields: seq<Field>)
    ensures forall x :: x in Insert(f, fields) <==> x == f || x in fields
    ensures Sorted(fields) && (forall x | x in fields :: x.key != f.key) ==> Sorted(Insert(f, fields))
  {
    if fields == [] {
    } else if Less(f.key, fields[0].key) {
      InsertFirst(f, fields);
    } else {
      InsertKeeps(f, fields[1..]);
      if Sorted(fields) && (forall x | x in fields :: x.key != f.key) {
        LessTotal(f.key, fields[0].key);
        forall x | x in Insert(f, fields[1..])
          ensures Less(fields[0].key, x.key)
        {
          if x != f {
            var i :| 0 <= i < |fields[1..]| && fields[1..][i] == x;
            assert fields[i + 1] == x;
          }
        }
        ConsSorted(fields[0], Insert(f, fields[1..]));
      }
    }
  }

  lemma InsertFirst(f: Field, fields: seq<Field>)
    requires fields != [] && Less(f.key, fields[0].key)
    ensures Sorted(fields) ==> Sorted([f] + fields)
  {
    if Sorted(fields) {
      forall x | x in fields
        ensures Less(f.key, x.key)
      {
        var i :| 0 <= i < |fields| && fields[i] == x;
        if i > 0 {
          LessTransitive(f.key, fields[0].key, x.key);
        }
      }
      ConsSorted(f, fields);
    }
  }

  lemma ConsSorted(f: Field, fields: seq<Field>)
    requires Sorted(fields) && forall x | x in fields :: Less(f.key, x.key)
    ensures Sorted([f] + fields)
  {
  }

  /** The canonical fields are the canonical form of each field, in strict key order. */
  lemma {:induction false} CanonicalFieldsAre(fields: seq<Field>)
    requires WellFormed(Object(fields))
    ensures forall x :: x in CanonicalFields(fields) <==> exists i | 0 <= i < |fields| :: x == CanonicalField(fields[i])
    ensures Sorted(CanonicalFields(fields))
    decreases fields
  {
    if fields != [] {
      var rest := fields[1..];
      CanonicalFieldsAre(rest);
      InsertKeeps(CanonicalField(fields[0]), CanonicalFields(rest));
      forall i | 0 < i < |fields|
        ensures fields[i] == rest[i - 1]
      {
      }
    }
  }

  /** Two strictly sorted lists of the same fields are one list. */
  lemma {:induction false} SortedUnique(a: seq<Field>, b: seq<Field>)
    requires Sorted(a) && Sorted(b) && forall x :: x in a <==> x in b
    ensures a == b
  {
    if a == [] {
      EmptyIff(b);
    } else {
      assert a[0] in b && b != [] && b[0] in a;
      SameFirst(a, b);
      NotAfterFirst(a);
      NotAfterFirst(b);
      forall x
        ensures x in a[1..] <==> x in b[1..]
      {
        assert x in a <==> x == a[0] || x in a[1..];
        assert x in b <==> x == b[0] || x in b[1..];
      }
      SortedUnique(a[1..], b[1..]);
    }
  }

  lemma EmptyIff(b: seq<Field>)
    ensures b == [] <==> forall x :: x !in b
  {
    if b != [] {
      assert b[0] in b;
    }
  }

  lemma NotAfterFirst(a: seq<Field>)
    requires Sorted(a) && a != []
    ensures a[0] !in a[1..]
  {
    LessTotal(a[0].key, a[0].key);
  }

  lemma SameFirst(a: seq<Field>, b: seq<Field>)
    requires Sorted(a) && Sorted(b) && a != [] && b != [] && a[0] in b && b[0] in a
    ensures a[0] == b[0]
  {
    LessTotal(a[0].key, b[0].key);
  }

  // ----- what the canonical tree shows -----

  /** Trees become identical exactly when they are the same unordered value. */
  lemma {:induction false} CanonicalIffSameValue(a: Json, b: Json)
    requires WellFormed(a) && WellFormed(b)
    ensures Canonical(a) == Canonical(b) <==> SameValue(a, b)
    decreases a, 1
  {
    if a.Array? && b.Array? {
      ArraysIffSameValue(a, b);
    } else if a.Object? && b.Object? {
      ObjectsIffSameValue(a, b);
    }
  }

  lemma {:induction false} ArraysIffSameValue(a: Json, b: Json)
    requires a.Array? && b.Array? && WellFormed(a) && WellFormed(b)
    ensures Canonical(a) == Canonical(b) <==> SameValue(a, b)
    decreases a, 0
  {
    SameItems(a.items, b.items);
    if |a.items| == |b.items| {
      forall i | 0 <= i < |a.items|
        ensures Canonical(a.items[i]) == Canonical(b.items[i]) <==> SameValue(a.items[i], b.items[i])
      {
        CanonicalIffSameValue(a.items[i], b.items[i]);
      }
    }
  }

  lemma {:induction false} ObjectsIffSameValue(a: Json, b: Json)
    requires a.Object? && b.Object? && WellFormed(a) && WellFormed(b)
    ensures Canonical(a) == Canonical(b) <==> SameValue(a, b)
    decreases a, 0
  {
    var xs, ys := a.fields, b.fields;
    SameFields(xs, ys);
    forall i, j | 0 <= i < |xs| && 0 <= j < |ys|
      ensures CanonicalField(xs[i]) == CanonicalField(ys[j]) <==> SameField(xs[i], ys[j])
    {
      CanonicalIffSameValue(xs[i].value, ys[j].value);
    }
    CoveredIffSame(xs, ys);
  }

  lemma CoveredIffSame(xs: seq<Field>, ys: seq<Field>)
    requires forall i, j | 0 <= i < |xs| && 0 <= j < |ys| ::
               CanonicalField(xs[i]) == CanonicalField(ys[j]) <==> SameField(xs[i], ys[j])
    ensures Covered(xs, ys) && Covered(ys, xs) <==> SameValue(Object(xs), Object(ys))
  {
    forall i | 0 <= i < |xs|
      ensures CanonicalIn(xs[i], ys) <==> InRight(xs[i], ys)
    {
    }
    forall j | 0 <= j < |ys|
      ensures CanonicalIn(ys[j], xs) <==> InLeft(xs, ys[j])
    {
    }
  }

  lemma SameItems(xs: seq<Json>, ys: seq<Json>)
    ensures Canonical(Array(xs)) == Canonical(Array(ys)) <==>
            |xs| == |ys| && forall i | 0 <= i < |xs| :: Canonical(xs[i]) == Canonical(ys[i])
  {
    var a, b := Canonical(Array(xs)).items, Canonical(Array(ys)).items;
    assert |a| == |xs| && |b| == |ys|;
    assert forall i | 0 <= i < |xs| :: a[i] == Canonical(xs[i]);
    assert forall i | 0 <= i < |ys| :: b[i] == Canonical(ys[i]);
    if |xs| == |ys| && forall i | 0 <= i < |xs| :: Canonical(xs[i]) == Canonical(ys[i]) {
      assert a == b;
    }
  }

  predicate CanonicalIn(x: Field, ys: seq<Field>) {
    exists j | 0 <= j < |ys| :: CanonicalField(x) == CanonicalField(ys[j])
  }

  predicate Covered(xs: seq<Field>, ys: seq<Field>) {
    forall i | 0 <= i < |xs| :: CanonicalIn(xs[i], ys)
  }

  lemma SameFields(xs: seq<Field>, ys: seq<Field>)
    requires WellFormed(Object(xs)) && WellFormed(Object(ys))
    ensures CanonicalFields(xs) == CanonicalFields(ys) <==> Covered(xs, ys) && Covered(ys, xs)
  {
    CoveredIff(xs, ys);
    CoveredIff(ys, xs);
    CanonicalFieldsAre(xs);
    CanonicalFieldsAre(ys);
    if Covered(xs, ys) && Covered(ys, xs) {
      SortedUnique(CanonicalFields(xs), CanonicalFields(ys));
    }
  }

  lemma CoveredIff(xs: seq<Field>, ys: seq<Field>)
    requires WellFormed(Object(xs)) && WellFormed(Object(ys))
    ensures Covered(xs, ys) <==> forall x | x in CanonicalFields(xs) :: x in CanonicalFields(ys)
  {
    forall i | 0 <= i < |xs|
      ensures CanonicalIn(xs[i], ys) <==> CanonicalField(xs[i]) in CanonicalFields(ys)
      ensures CanonicalField(xs[i]) in CanonicalFields(xs)
    {
      CanonicalFieldsAre(xs);
      CanonicalFieldsAre(ys);
    }
    if Covered(xs, ys) {
      forall x | x in CanonicalFields(xs)
        ensures x in CanonicalFields(ys)
      {
        CanonicalFieldsAre(xs);
        var i :| 0 <= i < |xs| && x == CanonicalField(xs[i]);
        assert CanonicalIn(xs[i], ys);
      }
    }
  }

  /** The canonical tree is well formed and the same unordered value. */
  lemma {:induction false} CanonicalKeepsValue(v: Json)
    requires WellFormed(v)
    ensures WellFormed(Canonical(v)) && SameValue(v, Canonical(v))
    decreases v
  {
    match v
    case Array(items) =>
      forall i | 0 <= i < |items| {
        CanonicalKeepsValue(items[i]);
      }
    case Object(fields) =>
      CanonicalFieldsAre(fields);
      var sorted := CanonicalFields(fields);
      forall i | 0 <= i < |fields|
        ensures SameField(fields[i], CanonicalField(fields[i])) && WellFormed(CanonicalField(fields[i]).value)
        ensures CanonicalField(fields[i]) in sorted
      {
        CanonicalKeepsValue(fields[i].value);
      }
      forall i, j | 0 <= i < j < |sorted|
        ensures sorted[i].key != sorted[j].key
      {
        LessTotal(sorted[i].key, sorted[j].key);
      }
      forall j | 0 <= j < |sorted|
        ensures WellFormed(sorted[j].value) && InLeft(fields, sorted[j])
      {
        assert sorted[j] in sorted;
      }
    case _ =>
  }

  lemma CanonicalIdempotent(v: Json)
    requires WellFormed(v)
    ensures Canonical(Canonical(v)) == Canonical(v)
  {
    CanonicalKeepsValue(v);
    CanonicalIffSameValue(v, Canonical(v));
  }

  // ----- keys of calls -----

  function CallKey(name: string, arguments: seq<Field>, render: Json -> string): string {
    name + [NUL] + render(Canonical(Object(arguments)))
  }

  const NUL: char := 0 as char

  lemma LongerTailHasNul(x: string, t: string, y: string, u: string)
    requires x + [NUL] + t == y + [NUL] + u && |t| < |u|
    ensures NUL in u
  {
    assert (x + [NUL] + t)[|x|] == NUL;
    assert (y + [NUL] + u)[|x|] == u[|x| - |y| - 1];
  }

  lemma SplitAtLastNul(x: string, t: string, y: string, u: string)
    requires NUL !in t && NUL !in u
    requires x + [NUL] + t == y + [NUL] + u
    ensures x == y && t == u
  {
    var whole := x + [NUL] + t;
    if |t| < |u| {
      LongerTailHasNul(x, t, y, u);
    } else if |u| < |t| {
      LongerTailHasNul(y, u, x, t);
    } else {
      assert |x| == |y|;
      assert x == whole[..|x|] && t == whole[|x| + 1..];
      assert y == whole[..|x|] && u == whole[|x| + 1..];
    }
  }

  /** Two calls get one key exactly when they name the same tool and their arguments are the same unordered
      value; names may be any text, because only the rendering is known to be free of NUL. */
  lemma SameKeyIffSameCall(n: string, a: seq<Field>, m: string, b: seq<Field>, render: Json -> string)
    requires WellFormed(Object(a)) && WellFormed(Object(b))
    requires forall v, w :: render(v) == render(w) ==> v == w
    requires forall v :: NUL !in render(v)
    ensures CallKey(n, a, render) == CallKey(m, b, render) <==> n == m && SameValue(Object(a), Object(b))
  {
    CanonicalIffSameValue(Object(a), Object(b));
    if CallKey(n, a, render) == CallKey(m, b, render) {
      SplitAtLastNul(n, render(Canonical(Object(a))), m, render(Canonical(Object(b))));
    }
  }
}

/** Extractive views of JSON trees. */
module Extraction {
  import opened JsonTree

  // ---------------------------------------------------------------- equality

  predicate IsNumber(v: Json) {
    v.Bool? || v.Int? || v.Float? || v.NegativeZero?
  }

  /** The value of a number; in Python true is one and false is zero. */
  function NumberOf(v: Json): real
    requires IsNumber(v)
  {
    match v
    case Bool(b) => if b then 1.0 else 0.0
    case Int(n) => n as real
    case Float(r) => r
    case NegativeZero => 0.0
  }

  /** Python's equality of JSON values: numbers compare by value, whatever their type. */
  predicate PyEq(a: Json, b: Json) {
    match a
    case Null => b.Null?
    case Str(s) => b.Str? && b.s == s
    case Arr(items) => b.Arr? && |b.items| == |items| && forall i | 0 <= i < |items| :: PyEq(items[i], b.items[i])
    case Obj(fields) => b.Obj? && b.fields.Keys == fields.Keys && forall k | k in fields :: PyEq(fields[k], b.fields[k])
    case _ => IsNumber(b) && NumberOf(a) == NumberOf(b)
  }

  lemma {:induction false} PyEqReflexive(a: Json)
    ensures PyEq(a, a)
  {
    match a {
      case Arr(items) =>
        forall i | 0 <= i < |items| ensures PyEq(items[i], items[i]) {
          PyEqReflexive(items[i]);
        }
      case Obj(fields) =>
        forall k | k in fields ensures PyEq(fields[k], fields[k]) {
          PyEqReflexive(fields[k]);
        }
      case _ =>
    }
  }

  lemma {:induction false} PyEqTransitive(a: Json, b: Json, c: Json)
    requires PyEq(a, b) && PyEq(b, c)
    ensures PyEq(a, c)
  {
    match a {
      case Arr(items) =>
        forall i | 0 <= i < |items| ensures PyEq(items[i], c.items[i]) {
          PyEqTransitive(items[i], b.items[i], c.items[i]);
        }
      case Obj(fields) =>
        forall k | k in fields ensures PyEq(fields[k], c.fields[k]) {
          PyEqTransitive(fields[k], b.fields[k], c.fields[k]);
        }
      case _ =>
    }
  }

  // ---------------------------------------------------------------- the extractive relation

  /** A mapping may omit keys and a list may omit, repeat and reorder items; what is left is equal. */
  predicate Extractive(c: Json, o: Json) {
    match c
    case Obj(fields) => o.Obj? && forall k | k in fields :: k in o.fields && Extractive(fields[k], o.fields[k])
    case Arr(items) => o.Arr? && forall i | 0 <= i < |items| :: Has(o.items, items[i])
    case _ => PyEq(c, o)
  }

  predicate Has(sources: seq<Json>, v: Json) {
    exists j | 0 <= j < |sources| :: PyEq(v, sources[j])
  }

  lemma {:induction false} EqualIsExtractive(c: Json, o: Json)
    requires PyEq(c, o)
    ensures Extractive(c, o)
  {
    match c {
      case Obj(fields) =>
        forall k | k in fields ensures Extractive(fields[k], o.fields[k]) {
          EqualIsExtractive(fields[k], o.fields[k]);
        }
      case Arr(items) =>
        forall i | 0 <= i < |items| ensures Has(o.items, items[i]) {
          assert PyEq(items[i], o.items[i]);
        }
      case _ =>
    }
  }

  lemma ExtractiveReflexive(a: Json)
    ensures Extractive(a, a)
  {
    PyEqReflexive(a);
    EqualIsExtractive(a, a);
  }

  lemma HasTransitive(sources: seq<Json>, v: Json, w: Json)
    requires PyEq(v, w) && Has(sources, w)
    ensures Has(sources, v)
  {
    var j :| 0 <= j < |sources| && PyEq(w, sources[j]);
    PyEqTransitive(v, w, sources[j]);
  }

  lemma {:induction false} ExtractiveTransitive(a: Json, b: Json, c: Json)
    requires Extractive(a, b) && Extractive(b, c)
    ensures Extractive(a, c)
  {
    if a.Obj? {
      forall k | k in a.fields ensures k in c.fields && Extractive(a.fields[k], c.fields[k]) {
        ExtractiveTransitive(a.fields[k], b.fields[k], c.fields[k]);
      }
    } else if a.Arr? {
      forall i | 0 <= i < |a.items| ensures Has(c.items, a.items[i]) {
        var j :| 0 <= j < |b.items| && PyEq(a.items[i], b.items[j]);
        HasTransitive(c.items, a.items[i], b.items[j]);
      }
    } else {
      PyEqTransitive(a, b, c);
    }
  }

  // ---------------------------------------------------------------- identifiers

  predicate EndsWith(s: string, suffix: string) {
    |suffix| <= |s| && s[|s| - |suffix|..] == suffix
  }

  predicate NamesId(key: string) {
    EndsWith(key, "_id") || EndsWith(key, "_ids") || EndsWith(key, "_refs") || key == "unit_key" || key == "node_key"
  }

  /** A key names an identifier exactly if it is one of the two keys or has one of the three endings. */
  lemma NamesIdIff(key: string)
    ensures NamesId(key) <==>
              || (exists stem :: key == stem + "_id") || (exists stem :: key == stem + "_ids")
              || (exists stem :: key == stem + "_refs") || key in {"unit_key", "node_key"}
  {
    EndsWithIff(key, "_id");
    EndsWithIff(key, "_ids");
    EndsWithIff(key, "_refs");
  }

  lemma EndsWithIff(s: string, suffix: string)
    ensures EndsWith(s, suffix) <==> exists stem :: s == stem + suffix
  {
    if EndsWith(s, suffix) {
      assert s == s[..|s| - |suffix|] + suffix;
    }
  }

  /** The identifiers in a value found under a key. */
  function Ids(v: Json, key: string): set<string> {
    match v
    case Obj(fields) => set k, x | k in fields && x in Ids(fields[k], k) :: x
    case Arr(items) => set i, x | 0 <= i < |items| && x in Ids(items[i], key) :: x
    case Str(s) => if NamesId(key) then {s} else {}
    case _ => {}
  }

  /** The identifiers, collected into one set. */
  method CollectIds(v: Json, key: string) returns (ids: set<string>)
    ensures ids == Ids(v, key)
    decreases v, 1
  {
    if v.Obj? {
      ids := CollectFields(v);
    } else if v.Arr? {
      ids := CollectItems(v, key);
    } else if v.Str? && NamesId(key) {
      ids := {v.s};
    } else {
      ids := {};
    }
  }

  predicate InField(v: Json, todo: set<string>, x: string)
    requires v.Obj?
  {
    exists k | k in v.fields :: k !in todo && x in Ids(v.fields[k], k)
  }

  predicate InItem(v: Json, key: string, n: nat, x: string)
    requires v.Arr? && n <= |v.items|
  {
    exists i | 0 <= i < n :: x in Ids(v.items[i], key)
  }

  method CollectFields(v: Json) returns (ids: set<string>)
    requires v.Obj?
    ensures forall x :: x in ids <==> InField(v, {}, x)
    decreases v, 0
  {
    ids := {};
    var todo := v.fields.Keys;
    while todo != {}
      invariant todo <= v.fields.Keys
      invariant forall x :: x in ids <==> InField(v, todo, x)
      decreases todo
    {
      var k :| k in todo;
      var nested := CollectIds(v.fields[k], k);
      ids := ids + nested;
      todo := todo - {k};
    }
  }

  method CollectItems(v: Json, key: string) returns (ids: set<string>)
    requires v.Arr?
    ensures forall x :: x in ids <==> InItem(v, key, |v.items|, x)
    decreases v, 0
  {
    ids := {};
    for i := 0 to |v.items|
      invariant forall x :: x in ids <==> InItem(v, key, i, x)
    {
      var nested := CollectIds(v.items[i], key);
      ids := ids + nested;
    }
  }

  lemma {:induction false} EqualSameIds(a: Json, b: Json, key: string)
    requires PyEq(a, b)
    ensures Ids(a, key) <= Ids(b, key)
  {
    match a {
      case Obj(fields) =>
        forall k, x | k in fields && x in Ids(fields[k], k) ensures x in Ids(b, key) {
          EqualSameIds(fields[k], b.fields[k], k);
        }
      case Arr(items) =>
        forall i, x | 0 <= i < |items| && x in Ids(items[i], key) ensures x in Ids(b, key) {
          EqualSameIds(items[i], b.items[i], key);
        }
      case _ =>
    }
  }

  /** An extractive view has no identifier of its own. */
  lemma {:induction false} ExtractiveKeepsIds(c: Json, o: Json, key: string)
    requires Extractive(c, o)
    ensures Ids(c, key) <= Ids(o, key)
  {
    match c {
      case Obj(fields) =>
        forall k, x | k in fields && x in Ids(fields[k], k) ensures x in Ids(o, key) {
          ExtractiveKeepsIds(fields[k], o.fields[k], k);
        }
      case Arr(items) =>
        forall i, x | 0 <= i < |items| && x in Ids(items[i], key) ensures x in Ids(o, key) {
          var j :| 0 <= j < |o.items| && PyEq(items[i], o.items[j]);
          EqualSameIds(items[i], o.items[j], key);
        }
      case _ =>
        EqualSameIds(c, o, key);
    }
  }

  // ---------------------------------------------------------------- numbers written otherwise

  /** All ways to write a number: as a whole number, as a float if one has its value, as a truth value, as negative
      zero. */
  function Forms(x: real): set<Json> {
    (if x.Floor as real == x then {Int(x.Floor)} else {})
    + (if IsDouble(x) then {Float(x)} else {})
    + (if x == 0.0 then {Bool(false), NegativeZero} else if x == 1.0 then {Bool(true)} else {})
  }

  function OtherForms(v: Json): set<Json> {
    if IsNumber(v) then Forms(NumberOf(v)) - {v} else {}
  }

  /** The values that result from writing one number of a value otherwise. */
  function Rewrites(v: Json): set<Json> {
    match v
    case Arr(items) => set i, w | 0 <= i < |items| && w in Rewrites(items[i]) :: Arr(items[i := w])
    case Obj(fields) => set k, w | k in fields && w in Rewrites(fields[k]) :: Obj(fields[k := w])
    case _ => OtherForms(v)
  }

  /** The forms of a number are the values that Python takes for it. */
  lemma FormsAreAll(w: Json, x: real)
    ensures w in Forms(x) <==> IsNumber(w) && NumberOf(w) == x
  {
    if w.Int? {
      assert (w.n as real).Floor == w.n;
    }
  }

  /** The other forms of a number are all the other values equal to it. */
  lemma OtherFormsAreAll(v: Json, w: Json)
    requires !v.Arr? && !v.Obj?
    ensures w in OtherForms(v) <==> PyEq(w, v) && w != v
  {
    if IsNumber(v) {
      FormsAreAll(w, NumberOf(v));
    }
  }

  lemma {:induction false} RewriteIsEqual(v: Json, w: Json)
    requires w in Rewrites(v)
    ensures PyEq(w, v)
  {
    if v.Arr? {
      var i, x :| 0 <= i < |v.items| && x in Rewrites(v.items[i]) && w == Arr(v.items[i := x]);
      forall j | 0 <= j < |v.items| ensures PyEq(w.items[j], v.items[j]) {
        if j == i {
          RewriteIsEqual(v.items[i], x);
        } else {
          PyEqReflexive(v.items[j]);
        }
      }
    } else if v.Obj? {
      var k, x :| k in v.fields && x in Rewrites(v.fields[k]) && w == Obj(v.fields[k := x]);
      forall j | j in v.fields ensures PyEq(w.fields[j], v.fields[j]) {
        if j == k {
          RewriteIsEqual(v.fields[k], x);
        } else {
          PyEqReflexive(v.fields[j]);
        }
      }
    } else {
      OtherFormsAreAll(v, w);
    }
  }

  /** A property that writing one number otherwise never loses. */
  ghost predicate Closed(p: Json -> bool) {
    forall v, w | p(v) && w in Rewrites(v) :: p(w)
  }

  /** The property of one item, or of one field, that the property of the whole amounts to. */
  function OfItem(p: Json -> bool, before: seq<Json>, after: seq<Json>): Json -> bool {
    (x: Json) => p(Arr(before + [x] + after))
  }

  function OfField(p: Json -> bool, fields: map<string, Json>, k: string): Json -> bool {
    (x: Json) => p(Obj(fields[k := x]))
  }

  lemma OfItemIsClosed(p: Json -> bool, before: seq<Json>, after: seq<Json>)
    requires Closed(p)
    ensures Closed(OfItem(p, before, after))
  {
    var q := OfItem(p, before, after);
    forall x, y | q(x) && y in Rewrites(x) ensures q(y) {
      var items := before + [x] + after;
      assert items[|before|] == x && items[|before| := y] == before + [y] + after;
      assert Arr(items[|before| := y]) in Rewrites(Arr(items));
    }
  }

  lemma OfFieldIsClosed(p: Json -> bool, fields: map<string, Json>, k: string)
    requires Closed(p)
    ensures Closed(OfField(p, fields, k))
  {
    var q := OfField(p, fields, k);
    forall x, y | q(x) && y in Rewrites(x) ensures q(y) {
      var all := fields[k := x];
      assert all[k] == x && all[k := y] == fields[k := y];
      assert Obj(all[k := y]) in Rewrites(Obj(all));
    }
  }

  /** Such a property holds of everything equal to a value it holds of: one number after the other is rewritten. */
  lemma {:induction false} ClosedReaches(p: Json -> bool, v: Json, w: Json)
    requires Closed(p) && p(v) && PyEq(w, v)
    ensures p(w)
    decreases v, 1
  {
    if v.Arr? {
      ClosedReachesItems(p, v, w, |v.items|);
      assert w.items[..|v.items|] + v.items[|v.items|..] == w.items;
    } else if v.Obj? {
      ClosedReachesFields(p, v, w);
    } else if w != v {
      OtherFormsAreAll(v, w);
      assert w in Rewrites(v);
    }
  }

  lemma {:induction false} ClosedReachesItems(p: Json -> bool, v: Json, w: Json, n: nat)
    requires Closed(p) && p(v) && v.Arr? && PyEq(w, v) && n <= |v.items|
    ensures p(Arr(w.items[..n] + v.items[n..]))
    decreases v, 0, n
  {
    if n == 0 {
      assert w.items[..0] + v.items[0..] == v.items;
    } else {
      ClosedReachesItems(p, v, w, n - 1);
      var before, after := w.items[..n - 1], v.items[n..];
      assert w.items[..n - 1] + v.items[n - 1..] == before + [v.items[n - 1]] + after;
      assert w.items[..n] + v.items[n..] == before + [w.items[n - 1]] + after;
      OfItemIsClosed(p, before, after);
      ClosedReaches(OfItem(p, before, after), v.items[n - 1], w.items[n - 1]);
    }
  }

  lemma {:induction false} ClosedReachesFields(p: Json -> bool, v: Json, w: Json)
    requires Closed(p) && p(v) && v.Obj? && PyEq(w, v)
    ensures p(w)
    decreases v, 0
  {
    var todo, fields := v.fields.Keys, v.fields;
    while todo != {}
      invariant todo <= v.fields.Keys && fields.Keys == v.fields.Keys && p(Obj(fields))
      invariant forall k | k in v.fields :: fields[k] == if k in todo then v.fields[k] else w.fields[k]
      decreases todo
    {
      var k :| k in todo;
      assert fields[k := v.fields[k]] == fields;
      OfFieldIsClosed(p, fields, k);
      ClosedReaches(OfField(p, fields, k), v.fields[k], w.fields[k]);
      fields := fields[k := w.fields[k]];
      todo := todo - {k};
    }
    assert fields == w.fields;
  }

  // ---------------------------------------------------------------- byte for byte

  /** The relation the documentation promises: what is retained is the very value that was there. */
  predicate Verbatim(c: Json, o: Json) {
    match c
    case Obj(fields) => o.Obj? && forall k | k in fields :: k in o.fields && Verbatim(fields[k], o.fields[k])
    case Arr(items) => o.Arr? && forall i | 0 <= i < |items| :: items[i] in o.items
    case _ => c == o
  }

  /** Where a number can be written otherwise unnoticed: a number that has another form, or a list in which writing one
      number of one item otherwise gives something that is not an item. */
  predicate Exposed(o: Json) {
    match o
    case Obj(fields) => exists k | k in fields :: Exposed(fields[k])
    case Arr(items) => exists i | 0 <= i < |items| :: !ListsAll(items, Rewrites(items[i]))
    case _ => OtherForms(o) != {}
  }

  predicate ListsAll(items: seq<Json>, values: set<Json>) {
    forall w | w in values :: w in items
  }

  /** In a list that is not exposed every value equal to an item is an item. */
  lemma UnexposedListHasAllForms(items: seq<Json>, v: Json)
    requires !Exposed(Arr(items)) && Has(items, v)
    ensures v in items
  {
    var p := (x: Json) => x in items;
    forall x, w | p(x) && w in Rewrites(x) ensures p(w) {
      var i :| 0 <= i < |items| && items[i] == x;
      assert ListsAll(items, Rewrites(items[i]));
    }
    assert Closed(p);
    var j :| 0 <= j < |items| && PyEq(v, items[j]);
    assert p(items[j]);
    ClosedReaches(p, items[j], v);
  }

  lemma {:induction false} VerbatimUnlessExposed(c: Json, o: Json)
    requires Extractive(c, o) && !Exposed(o)
    ensures Verbatim(c, o)
  {
    if c.Obj? {
      forall k | k in c.fields ensures Verbatim(c.fields[k], o.fields[k]) {
        VerbatimUnlessExposed(c.fields[k], o.fields[k]);
      }
    } else if c.Arr? {
      forall i | 0 <= i < |c.items| ensures c.items[i] in o.items {
        UnexposedListHasAllForms(o.items, c.items[i]);
      }
    } else {
      OtherFormsAreAll(o, c);
    }
  }

  lemma {:induction false} ExposedIsRewritten(o: Json) returns (c: Json)
    requires Exposed(o)
    ensures Extractive(c, o) && !Verbatim(c, o)
  {
    if o.Obj? {
      var k :| k in o.fields && Exposed(o.fields[k]);
      var inner := ExposedIsRewritten(o.fields[k]);
      c := Obj(map[k := inner]);
      assert c.fields[k] == inner;
    } else if o.Arr? {
      var i :| 0 <= i < |o.items| && !ListsAll(o.items, Rewrites(o.items[i]));
      var w :| w in Rewrites(o.items[i]) && w !in o.items;
      RewriteIsEqual(o.items[i], w);
      c := Arr([w]);
      assert c.items[0] == w;
    } else {
      c :| c in OtherForms(o);
      OtherFormsAreAll(o, c);
    }
  }

  /** Extraction retains values byte for byte if and only if no number of the original can be written otherwise
      unnoticed. */
  lemma VerbatimIff(o: Json)
    ensures (forall c | Extractive(c, o) :: Verbatim(c, o)) <==> !Exposed(o)
  {
    if Exposed(o) {
      var c := ExposedIsRewritten(o);
    } else {
      forall c | Extractive(c, o) ensures Verbatim(c, o) {
        VerbatimUnlessExposed(c, o);
      }
    }
  }

  /** Numbers that can be written otherwise: true, false, whole floats, and whole numbers that some float equals. */
  predicate Loose(v: Json) {
    v.Bool? || v.NegativeZero? || (v.Int? && IsDouble(v.n as real)) || (v.Float? && v.r.Floor as real == v.r)
  }

  /** A single number is exposed exactly when it is one of those. */
  lemma LooseIsExposed(v: Json)
    requires !v.Arr? && !v.Obj?
    ensures Exposed(v) <==> Loose(v)
  {
    if v.Int? {
      assert IsDouble(v.n as real) ==> Float(v.n as real) in OtherForms(v);
      assert v.n == 0 || v.n == 1 ==> IsDouble(v.n as real);
    } else if v.Bool? {
      assert Int(if v.b then 1 else 0) in OtherForms(v);
    } else if v.NegativeZero? {
      assert Int(0) in OtherForms(v);
    } else if Loose(v) {
      assert Int(v.r.Floor) in OtherForms(v);
    }
  }

  lemma {:induction false} LargeIsNotHalved(r: real, times: nat)
    requires 9007199254740992.0 <= r
    ensures !Halved(r, times)
    decreases times
  {
    if times > 0 {
      LargeIsNotHalved(2.0 * r, times - 1);
    }
  }

  /** The first whole number that no float equals comes back as it is. */
  lemma LargeNumberIsKept(c: Json)
    requires Extractive(c, Int(9007199254740993))
    ensures c == Int(9007199254740993)
  {
    var r := 9007199254740993 as real;
    LargeIsNotHalved(r, 1074);
    assert r.Floor == 9007199254740993 && !Doubled(9007199254740993, 971);
    LooseIsExposed(Int(9007199254740993));
    VerbatimUnlessExposed(c, Int(9007199254740993));
  }

  /** A list that holds zero in all its other forms still accepts negative zero. */
  lemma NegativeZeroComesBack()
    ensures var c, o := Arr([NegativeZero]), Arr([Int(0), Float(0.0), Bool(false)]); Extractive(c, o) && !Verbatim(c, o)
  {
    var c, o := Arr([NegativeZero]), Arr([Int(0), Float(0.0), Bool(false)]);
    assert PyEq(c.items[0], o.items[0]);
    assert c.items[0] !in o.items;
  }

  /** The failing case: a one comes back as true. */
  lemma OneComesBackAsTrue()
    ensures Extractive(Obj(map["n" := Bool(true)]), Obj(map["n" := Int(1)]))
    ensures !Verbatim(Obj(map["n" := Bool(true)]), Obj(map["n" := Int(1)]))
  {
    var c, o := Obj(map["n" := Bool(true)]), Obj(map["n" := Int(1)]);
    assert PyEq(c.fields["n"], o.fields["n"]);
    assert c.fields["n"] != o.fields["n"];
  }
}

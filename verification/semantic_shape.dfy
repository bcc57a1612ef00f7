/**
 The search of a provider response for the fixed synthetic answer: through objects, lists and
 strings that themselves hold JSON, against reachability of an object along some path.
 */
module SemanticShape {
  import opened Basics
  import opened JsonValues

  const FIXTURE_ID := "staging-fixture-001"

  // ----- Size, the measure of the search -----

  /** A string weighs one more than its length, so parsing one always loses weight. */
  ghost function Size(v: Json): (n: nat)
    ensures n > 0
    decreases v, 1, 0
  {
    match v
    case Str(s) => |s| + 1
    case Arr(items) => 1 + SizeOfItems(v, items)
    case Obj(m) => 1 + SizeOfFields(v, m, SortedKeys(m.Keys))
    case _ => 1
  }

  ghost function SizeOfItems(v: Json, items: seq<Json>): nat
    requires v.Arr? && forall i :: 0 <= i < |items| ==> items[i] in v.items
    decreases v, 0, |items|
  {
    if items == [] then 0 else
    assert items[0] in v.items;
    Size(items[0]) + SizeOfItems(v, items[1..])
  }

  ghost function SizeOfFields(v: Json, m: map<string, Json>, keys: seq<string>): nat
    requires v == Obj(m) && forall k :: k in keys ==> k in m
    decreases v, 0, |keys|
  {
    if keys == [] then 0 else Size(m[keys[0]]) + SizeOfFields(v, m, keys[1..])
  }

  lemma {:induction false} ItemIsSmaller(v: Json, items: seq<Json>, i: nat)
    requires v.Arr? && (forall k :: 0 <= k < |items| ==> items[k] in v.items) && i < |items|
    ensures Size(items[i]) <= SizeOfItems(v, items)
    decreases |items|
  {
    if i > 0 {
      ItemIsSmaller(v, items[1..], i - 1);
    }
  }

  lemma {:induction false} FieldIsSmaller(v: Json, m: map<string, Json>, keys: seq<string>, k: string)
    requires v == Obj(m) && (forall x :: x in keys ==> x in m) && k in keys
    ensures Size(m[k]) <= SizeOfFields(v, m, keys)
    decreases |keys|
  {
    if keys[0] != k {
      FieldIsSmaller(v, m, keys[1..], k);
    }
  }

  /** A decoder of JSON text; what it decodes never weighs more than the text. */
  ghost predicate Decoder(parse: string -> Option<Json>) {
    forall t :: parse(t).Some? ==> Size(parse(t).value) <= |t|
  }

  // ----- Reachability -----

  datatype Step = Field(key: string) | Item(i: nat) | Text

  function Next(parse: string -> Option<Json>, v: Json, step: Step): Option<Json> {
    match (v, step)
    case (Obj(m), Field(k)) => if k in m then Some(m[k]) else None
    case (Arr(items), Item(i)) => if i < |items| then Some(items[i]) else None
    case (Str(s), Text) => parse(s)
    case _ => None
  }

  /** Every step loses weight, so every path is finite. */
  lemma StepsShrink(parse: string -> Option<Json>, v: Json, step: Step)
    requires Decoder(parse)
    ensures Next(parse, v, step).Some? ==> Size(Next(parse, v, step).value) < Size(v)
  {
    match (v, step)
    case (Obj(m), Field(k)) => if k in m { FieldIsSmaller(v, m, SortedKeys(m.Keys), k); }
    case (Arr(items), Item(i)) => if i < |items| { ItemIsSmaller(v, items, i); }
    case _ =>
  }

  function Walk(parse: string -> Option<Json>, v: Json, path: seq<Step>): Option<Json>
    decreases |path|
  {
    if path == [] then Some(v)
    else if Next(parse, v, path[0]).None? then None
    else Walk(parse, Next(parse, v, path[0]).value, path[1..])
  }

  datatype Sought = OkStatus | FixtureAnswer | Both

  /** What the search looks for in one object. */
  predicate Holds(w: Sought, v: Json) {
    v.Obj? && match w
    case OkStatus => HasStatus(v.m)
    case FixtureAnswer => HasAnswer(v.m)
    case Both => HasStatus(v.m) && HasAnswer(v.m)
  }

  predicate HasStatus(m: map<string, Json>) {
    "status" in m && m["status"] == Str("ok")
  }

  predicate HasAnswer(m: map<string, Json>) {
    "answer" in m && m["answer"] == Str(FIXTURE_ID)
  }

  ghost predicate At(w: Sought, parse: string -> Option<Json>, v: Json, path: seq<Step>) {
    Walk(parse, v, path).Some? && Holds(w, Walk(parse, v, path).value)
  }

  /** Some object reachable from `v` holds `w`. */
  ghost predicate Reaches(w: Sought, parse: string -> Option<Json>, v: Json) {
    exists path :: At(w, parse, v, path)
  }

  ghost predicate Through(w: Sought, parse: string -> Option<Json>, v: Json, step: Step) {
    Next(parse, v, step).Some? && Reaches(w, parse, Next(parse, v, step).value)
  }

  lemma ReachesHereOrBelow(w: Sought, parse: string -> Option<Json>, v: Json)
    ensures Reaches(w, parse, v) <==> Holds(w, v) || exists step :: Through(w, parse, v, step)
  {
    if Holds(w, v) {
      assert At(w, parse, v, []);
    }
    if path :| At(w, parse, v, path) {
      if path != [] {
        assert At(w, parse, Next(parse, v, path[0]).value, path[1..]);
        assert Through(w, parse, v, path[0]);
      }
    }
    if step :| Through(w, parse, v, step) {
      var path :| At(w, parse, Next(parse, v, step).value, path);
      assert ([step] + path)[1..] == path;
      assert At(w, parse, v, [step] + path);
    }
  }

  /** An exact answer shows both of its halves. */
  lemma ExactShowsBoth(parse: string -> Option<Json>, v: Json)
    requires Reaches(Both, parse, v)
    ensures Reaches(OkStatus, parse, v) && Reaches(FixtureAnswer, parse, v)
  {
    var path :| At(Both, parse, v, path);
    assert At(OkStatus, parse, v, path) && At(FixtureAnswer, parse, v, path);
  }

  /** The halves in two different objects are not an exact answer. */
  lemma HalvesApartAreNotExact(parse: string -> Option<Json>)
    requires parse("ok").None? && parse(FIXTURE_ID).None?
    ensures exists v :: Reaches(OkStatus, parse, v) && Reaches(FixtureAnswer, parse, v) && !Reaches(Both, parse, v)
  {
    var left, right := Obj(map["status" := Str("ok")]), Obj(map["answer" := Str(FIXTURE_ID)]);
    var v := Arr([left, right]);
    assert At(OkStatus, parse, left, []) && At(FixtureAnswer, parse, right, []);
    assert Through(OkStatus, parse, v, Item(0)) && Through(FixtureAnswer, parse, v, Item(1));
    forall w { ReachesHereOrBelow(w, parse, v); }
    forall x | x == left || x == right ensures !Reaches(Both, parse, x) {
      ReachesHereOrBelow(Both, parse, x);
      forall step ensures !Through(Both, parse, x, step) {
        forall s | s == "ok" || s == FIXTURE_ID { ReachesHereOrBelow(Both, parse, Str(s)); }
      }
    }
    assert !Holds(Both, v) && forall step :: !Through(Both, parse, v, step);
  }

  // ----- The search -----

  datatype Shape = Shape(statusOk: bool, answerOk: bool, exact: bool)

  ghost predicate Describes(shape: Shape, parse: string -> Option<Json>, v: Json) {
    && (shape.statusOk <==> Reaches(OkStatus, parse, v))
    && (shape.answerOk <==> Reaches(FixtureAnswer, parse, v))
    && (shape.exact <==> Reaches(Both, parse, v))
  }

  function Or(a: Shape, b: Shape): Shape {
    Shape(a.statusOk || b.statusOk, a.answerOk || b.answerOk, a.exact || b.exact)
  }

  /** The flags so far: the object's own and those of the children in `seen`. */
  ghost predicate SoFar(shape: Shape, own: Json, parse: string -> Option<Json>, v: Json, seen: iset<Step>) {
    && (shape.statusOk <==> Holds(OkStatus, own) || exists s :: s in seen && Through(OkStatus, parse, v, s))
    && (shape.answerOk <==> Holds(FixtureAnswer, own) || exists s :: s in seen && Through(FixtureAnswer, parse, v, s))
    && (shape.exact <==> Holds(Both, own) || exists s :: s in seen && Through(Both, parse, v, s))
  }

  lemma OneMoreChild(shape: Shape, own: Json, parse: string -> Option<Json>, v: Json,
      seen: iset<Step>, step: Step, below: Shape)
    requires SoFar(shape, own, parse, v, seen)
    requires Next(parse, v, step).Some? && Describes(below, parse, Next(parse, v, step).value)
    ensures SoFar(Or(shape, below), own, parse, v, seen + iset{step})
  {
    hide Reaches, Holds, Next;
  }

  lemma AllChildren(shape: Shape, parse: string -> Option<Json>, v: Json, seen: iset<Step>)
    requires SoFar(shape, v, parse, v, seen) && forall s :: Next(parse, v, s).Some? ==> s in seen
    ensures Describes(shape, parse, v)
  {
    hide Reaches, Holds, Next;
    ReachesHereOrBelow(OkStatus, parse, v);
    ReachesHereOrBelow(FixtureAnswer, parse, v);
    ReachesHereOrBelow(Both, parse, v);
  }

  /** `_semantic_shape`: three flags, each exactly reachability of an object of that kind. */
  method Search(parse: string -> Option<Json>, v: Json) returns (shape: Shape)
    requires Decoder(parse)
    ensures Describes(shape, parse, v)
    ensures shape.exact ==> shape.statusOk && shape.answerOk
    decreases Size(v)
  {
    hide Decoder, Reaches, Size;
    match v {
      case Obj(m) => shape := SearchFields(parse, v);
      case Arr(items) => shape := SearchItems(parse, v);
      case Str(s) =>
        shape := Shape(false, false, false);
        StepsShrink(parse, v, Text);
        if parse(s).Some? {
          shape := Search(parse, parse(s).value);
          OneMoreChild(Shape(false, false, false), v, parse, v, iset{}, Text, shape);
        }
        AllChildren(shape, parse, v, if parse(s).Some? then iset{Text} else iset{});
      case _ =>
        shape := Shape(false, false, false);
        AllChildren(shape, parse, v, iset{});
    }
    if Reaches(Both, parse, v) {
      ExactShowsBoth(parse, v);
    }
  }

  /** What the loop over the keys has found below the keys it has met. */
  ghost predicate Met(w: Sought, parse: string -> Option<Json>, v: Json, left: set<string>)
    requires v.Obj?
  {
    exists k :: k in v.m.Keys - left && Through(w, parse, v, Field(k))
  }

  lemma OneMoreField(w: Sought, parse: string -> Option<Json>, v: Json, left: set<string>, key: string)
    requires v.Obj? && key in left && left <= v.m.Keys
    ensures Met(w, parse, v, left - {key}) <==> Met(w, parse, v, left) || Reaches(w, parse, v.m[key])
  {
    hide Reaches;
    assert Through(w, parse, v, Field(key)) <==> Reaches(w, parse, v.m[key]);
    hide Through;
    if Met(w, parse, v, left) {
      var k :| k in v.m.Keys - left && Through(w, parse, v, Field(k));
      assert k in v.m.Keys - (left - {key});
    }
    if Through(w, parse, v, Field(key)) {
      assert key in v.m.Keys - (left - {key});
    }
  }

  lemma NoFieldMet(w: Sought, parse: string -> Option<Json>, v: Json)
    requires v.Obj?
    ensures !Met(w, parse, v, v.m.Keys)
  {
  }

  lemma EveryFieldMet(w: Sought, parse: string -> Option<Json>, v: Json)
    requires v.Obj?
    ensures Reaches(w, parse, v) <==> Holds(w, v) || Met(w, parse, v, {})
  {
    ReachesHereOrBelow(w, parse, v);
    hide Reaches, Holds;
    if step :| Through(w, parse, v, step) {
      assert step.Field? && step.key in v.m.Keys - {};
    }
  }

  method SearchFields(parse: string -> Option<Json>, v: Json) returns (shape: Shape)
    requires Decoder(parse) && v.Obj?
    ensures Describes(shape, parse, v)
    decreases Size(v), 0
  {
    hide Decoder, Reaches, Size, Met;
    var m := v.m;
    shape := Shape(
      false, false, "status" in m && m["status"] == Str("ok") && "answer" in m && m["answer"] == Str(FIXTURE_ID));
    var left := m.Keys;
    forall w { NoFieldMet(w, parse, v); }
    while left != {}
      invariant left <= m.Keys
      invariant shape.statusOk <==> (HasStatus(m) && "status" !in left) || Met(OkStatus, parse, v, left)
      invariant shape.answerOk <==> (HasAnswer(m) && "answer" !in left) || Met(FixtureAnswer, parse, v, left)
      invariant shape.exact <==> Holds(Both, v) || Met(Both, parse, v, left)
      decreases left
    {
      var key :| key in left;
      var nested := m[key];
      if key == "status" && nested == Str("ok") {
        shape := shape.(statusOk := true);
      }
      if key == "answer" && nested == Str(FIXTURE_ID) {
        shape := shape.(answerOk := true);
      }
      StepsShrink(parse, v, Field(key));
      OneMoreField(OkStatus, parse, v, left, key);
      OneMoreField(FixtureAnswer, parse, v, left, key);
      OneMoreField(Both, parse, v, left, key);
      var below := Search(parse, nested);
      shape := Or(shape, below);
      left := left - {key};
    }
    forall w { EveryFieldMet(w, parse, v); }
  }

  method SearchItems(parse: string -> Option<Json>, v: Json) returns (shape: Shape)
    requires Decoder(parse) && v.Arr?
    ensures Describes(shape, parse, v)
    decreases Size(v), 0
  {
    hide Decoder, Reaches, Size;
    shape := Shape(false, false, false);
    ghost var seen: iset<Step> := iset{};
    for i := 0 to |v.items|
      invariant SoFar(shape, v, parse, v, seen)
      invariant forall k :: 0 <= k < i ==> Item(k) in seen
    {
      StepsShrink(parse, v, Item(i));
      var below := Search(parse, v.items[i]);
      OneMoreChild(shape, v, parse, v, seen, Item(i), below);
      shape, seen := Or(shape, below), seen + iset{Item(i)};
    }
    AllChildren(shape, parse, v, seen);
  }
}

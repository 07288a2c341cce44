/** The config schema without its doc text: what two releases must share to have the same config contract. */
module SchemaText {
  import opened Common
  import opened Json

  const DESCRIPTION := "description"

  /** The keywords whose keys are field names, not keywords. */
  predicate NamesFields(key: string) {
    key == "properties" || key == "patternProperties" || key == "$defs" || key == "definitions"
  }

  // ----- Stripping -----

  /** `v` without the `description` keywords at the positions that are keywords. */
  function Strip(v: Value): Value
    decreases v, 1
  {
    match v
    case Object(fields) =>
      Object(map key | key in fields && key != DESCRIPTION :: StripChild(key, fields[key]))
    case Array(items) => Array(seq(|items|, i requires 0 <= i < |items| => Strip(items[i])))
    case _ => v
  }

  /** The child under `key`: a map of named fields is entered by value, its keys kept. */
  function StripChild(key: string, child: Value): Value
    decreases child, 2
  {
    if !NamesFields(key) then Strip(child)
    else if child.Object? then Object(StripNamed(child))
    else child
  }

  function StripNamed(named: Value): map<string, Value>
    requires named.Object?
    decreases named, 0
  {
    map name | name in named.fields :: Strip(named.fields[name])
  }

  /** Drops the doc text key by key, as the gateway does before it hashes its schema. */
  method StripDocText(v: Value) returns (r: Value)
    ensures r == Strip(v)
    decreases v
  {
    match v {
      case Object(fields) =>
        var left := fields.Keys - {DESCRIPTION};
        var out: map<string, Value> := map[];
        while left != {}
          invariant left <= fields.Keys - {DESCRIPTION}
          invariant out.Keys == fields.Keys - {DESCRIPTION} - left
          invariant forall key :: key in out ==> out[key] == StripChild(key, fields[key])
          decreases left
        {
          var key :| key in left;
          var child := fields[key];
          if NamesFields(key) {
            if child.Object? {
              var named := StripEach(child);
              out := out[key := Object(named)];
            } else {
              out := out[key := child];
            }
          } else {
            var stripped := StripDocText(child);
            out := out[key := stripped];
          }
          left := left - {key};
        }
        return Object(out);
      case Array(items) =>
        var out := [];
        for i := 0 to |items|
          invariant |out| == i && forall k :: 0 <= k < i ==> out[k] == Strip(items[k])
        {
          var item := StripDocText(items[i]);
          out := out + [item];
        }
        assert out == seq(|items|, i requires 0 <= i < |items| => Strip(items[i]));
        return Array(out);
      case _ => return v;
    }
  }

  /** Strips every named field, and drops none. */
  method StripEach(named: Value) returns (out: map<string, Value>)
    requires named.Object?
    ensures out == StripNamed(named)
    decreases named, 0
  {
    out := map[];
    var left := named.fields.Keys;
    while left != {}
      invariant left <= named.fields.Keys
      invariant out.Keys == named.fields.Keys - left
      invariant forall name :: name in out ==> out[name] == Strip(named.fields[name])
      decreases left
    {
      var name :| name in left;
      var stripped := StripDocText(named.fields[name]);
      out := out[name := stripped];
      left := left - {name};
    }
  }

  // ----- What survives -----

  /** Every key but the keyword itself survives, and a field keeps its place whatever it is called. */
  lemma NamesSurvive(fields: map<string, Value>, key: string)
    requires key in fields && key != DESCRIPTION
    ensures Strip(Object(fields)).Object? && key in Strip(Object(fields)).fields
    ensures NamesFields(key) && fields[key].Object? ==>
      && Strip(Object(fields)).fields[key].Object?
      && Strip(Object(fields)).fields[key].fields.Keys == fields[key].fields.Keys
    ensures DESCRIPTION !in Strip(Object(fields)).fields
  {
    if NamesFields(key) && fields[key].Object? {
      assert Strip(Object(fields)).fields[key] == Object(StripNamed(fields[key]));
      assert StripNamed(fields[key]).Keys == fields[key].fields.Keys;
    }
  }

  /** A field called `description` keeps its place under the four keywords that name fields, and under no other. */
  lemma DescriptionSurvivesIff(key: string, x: Value)
    requires key != "description"
    ensures Strip(Object(map[key := Object(map["description" := x])])) ==
      if key in ["properties", "patternProperties", "$defs", "definitions"]
      then Object(map[key := Object(map["description" := Strip(x)])])
      else Object(map[key := Object(map[])])
  {
    var child := Object(map["description" := x]);
    var v := Object(map[key := child]);
    assert Strip(v).fields == map[key := StripChild(key, child)];
    if NamesFields(key) {
      assert StripNamed(child) == map["description" := Strip(x)];
    } else {
      assert Strip(child).fields == map[];
    }
  }

  /** Stripping again changes nothing. */
  lemma {:induction false} StripIdempotent(v: Value)
    ensures Strip(Strip(v)) == Strip(v)
    decreases v, 1
  {
    match v
    case Object(fields) =>
      forall key | key in fields && key != DESCRIPTION
        ensures StripChild(key, StripChild(key, fields[key])) == StripChild(key, fields[key])
      {
        StripChildIdempotent(key, fields[key]);
      }
    case Array(items) =>
      forall i | 0 <= i < |items| ensures Strip(Strip(items[i])) == Strip(items[i]) {
        StripIdempotent(items[i]);
      }
    case _ =>
  }

  lemma {:induction false} StripChildIdempotent(key: string, child: Value)
    ensures StripChild(key, StripChild(key, child)) == StripChild(key, child)
    decreases child, 2
  {
    if !NamesFields(key) {
      StripIdempotent(child);
    } else if child.Object? {
      forall name | name in child.fields ensures Strip(Strip(child.fields[name])) == Strip(child.fields[name]) {
        StripIdempotent(child.fields[name]);
      }
    }
  }

  // ----- Edits of doc text -----

  /**
   * `b` is `a` with one `description` keyword added, removed or rewritten: at this object, inside one keyword's value,
   * inside one named field, or inside one array item.
   */
  ghost predicate Edit(a: Value, b: Value)
    decreases a, 1
  {
    match (a, b)
    case (Object(f), Object(g)) =>
      || f - {DESCRIPTION} == g - {DESCRIPTION}
      || exists key :: key in f && key in g && key != DESCRIPTION && f - {key} == g - {key} && EditChild(key, f[key], g[key])
    case (Array(s), Array(t)) =>
      |s| == |t| && exists i :: 0 <= i < |s| && t == s[i := t[i]] && Edit(s[i], t[i])
    case _ => false
  }

  ghost predicate EditChild(key: string, a: Value, b: Value)
    decreases a, 2
  {
    if !NamesFields(key) then Edit(a, b)
    else
      && a.Object? && b.Object?
      && exists name :: name in a.fields && name in b.fields && a.fields - {name} == b.fields - {name}
           && Edit(a.fields[name], b.fields[name])
  }

  /** An edit leaves the stripped form alone. */
  lemma {:induction false} EditKeepsStrip(a: Value, b: Value)
    requires Edit(a, b)
    ensures Strip(a) == Strip(b)
    decreases a, 1
  {
    match (a, b)
    case (Object(f), Object(g)) =>
      if f - {DESCRIPTION} == g - {DESCRIPTION} {
        SameKeysExcept(f, g, DESCRIPTION);
      } else {
        var key :| key in f && key in g && key != DESCRIPTION && f - {key} == g - {key} && EditChild(key, f[key], g[key]);
        EditChildKeepsStrip(key, f[key], g[key]);
        SameKeysExcept(f, g, key);
      }
    case (Array(s), Array(t)) =>
      var i :| 0 <= i < |s| && t == s[i := t[i]] && Edit(s[i], t[i]);
      EditKeepsStrip(s[i], t[i]);
  }

  lemma SameKeysExcept(f: map<string, Value>, g: map<string, Value>, key: string)
    requires f - {key} == g - {key}
    ensures forall k :: k != key ==> (k in f <==> k in g)
    ensures forall k :: k != key && k in f ==> f[k] == g[k]
  {
    forall k | k != key ensures k in f <==> k in g {
      assert k in f <==> k in f - {key};
      assert k in g <==> k in g - {key};
    }
    forall k | k != key && k in f ensures f[k] == g[k] {
      assert (f - {key})[k] == f[k] && (g - {key})[k] == g[k];
    }
  }

  lemma {:induction false} EditChildKeepsStrip(key: string, a: Value, b: Value)
    requires EditChild(key, a, b)
    ensures StripChild(key, a) == StripChild(key, b)
    decreases a, 2
  {
    if !NamesFields(key) {
      EditKeepsStrip(a, b);
    } else {
      var name :| name in a.fields && name in b.fields && a.fields - {name} == b.fields - {name}
        && Edit(a.fields[name], b.fields[name]);
      EditKeepsStrip(a.fields[name], b.fields[name]);
      SameKeysExcept(a.fields, b.fields, name);
    }
  }

  // ----- Chains of edits -----

  type Relation = (Value, Value) -> bool

  /** One edit of a schema, or, with a key, of the value under that keyword. */
  ghost function Edits(at: Option<string>): Relation {
    (a: Value, b: Value) => match at case None => Edit(a, b) case Some(key) => EditChild(key, a, b)
  }

  ghost predicate Chain(step: Relation, a: Value, b: Value, n: nat)
    decreases n
  {
    if n == 0 then a == b else exists m :: step(a, m) && Chain(step, m, b, n - 1)
  }

  /** `b` is `a` after some steps. */
  ghost predicate Linked(step: Relation, a: Value, b: Value) {
    exists n :: Chain(step, a, b, n)
  }

  /** `b` is `a` after some edits of its doc text. */
  ghost predicate Edited(a: Value, b: Value) {
    Linked(Edits(None), a, b)
  }

  lemma LinkedToSelf(step: Relation, a: Value)
    ensures Linked(step, a, a)
  {
    assert Chain(step, a, a, 0);
  }

  lemma LinkedByStep(step: Relation, a: Value, b: Value)
    requires step(a, b)
    ensures Linked(step, a, b)
  {
    assert Chain(step, b, b, 0);
    assert Chain(step, a, b, 1);
  }

  lemma {:induction false} ChainsJoin(step: Relation, a: Value, b: Value, c: Value, n: nat, k: nat)
    requires Chain(step, a, b, n) && Chain(step, b, c, k)
    ensures Chain(step, a, c, n + k)
    decreases n
  {
    if n > 0 {
      var m :| step(a, m) && Chain(step, m, b, n - 1);
      ChainsJoin(step, m, b, c, n - 1, k);
    }
  }

  lemma LinkedTransitive(step: Relation, a: Value, b: Value, c: Value)
    requires Linked(step, a, b) && Linked(step, b, c)
    ensures Linked(step, a, c)
  {
    var n :| Chain(step, a, b, n);
    var k :| Chain(step, b, c, k);
    ChainsJoin(step, a, b, c, n, k);
  }

  lemma {:induction false} ChainReverses(step: Relation, a: Value, b: Value, n: nat)
    requires forall x, y :: step(x, y) ==> step(y, x)
    requires Chain(step, a, b, n)
    ensures Linked(step, b, a)
    decreases n
  {
    if n == 0 {
      LinkedToSelf(step, a);
    } else {
      var m :| step(a, m) && Chain(step, m, b, n - 1);
      ChainReverses(step, m, b, n - 1);
      LinkedByStep(step, m, a);
      LinkedTransitive(step, b, m, a);
    }
  }

  /** A chain of steps is a chain of the steps it makes inside a larger value. */
  lemma {:induction false} ChainInside(step: Relation, outer: Relation, wrap: Value -> Value, a: Value, b: Value, n: nat)
    requires forall x, y :: step(x, y) ==> outer(wrap(x), wrap(y))
    requires Chain(step, a, b, n)
    ensures Chain(outer, wrap(a), wrap(b), n)
    decreases n
  {
    if n > 0 {
      var m :| step(a, m) && Chain(step, m, b, n - 1);
      ChainInside(step, outer, wrap, m, b, n - 1);
      assert outer(wrap(a), wrap(m));
    }
  }

  lemma LinkedInside(step: Relation, outer: Relation, wrap: Value -> Value, a: Value, b: Value)
    requires forall x, y :: step(x, y) ==> outer(wrap(x), wrap(y))
    requires Linked(step, a, b)
    ensures Linked(outer, wrap(a), wrap(b))
  {
    var n :| Chain(step, a, b, n);
    ChainInside(step, outer, wrap, a, b, n);
  }

  // ----- An edit can be taken back -----

  lemma {:induction false} EditSymmetric(a: Value, b: Value)
    requires Edit(a, b)
    ensures Edit(b, a)
    decreases a, 1
  {
    match (a, b)
    case (Object(f), Object(g)) =>
      if f - {DESCRIPTION} != g - {DESCRIPTION} {
        var key :| key in f && key in g && key != DESCRIPTION && f - {key} == g - {key} && EditChild(key, f[key], g[key]);
        EditChildSymmetric(key, f[key], g[key]);
      }
    case (Array(s), Array(t)) =>
      var i :| 0 <= i < |s| && t == s[i := t[i]] && Edit(s[i], t[i]);
      EditSymmetric(s[i], t[i]);
      assert s == t[i := s[i]];
  }

  lemma {:induction false} EditChildSymmetric(key: string, a: Value, b: Value)
    requires EditChild(key, a, b)
    ensures EditChild(key, b, a)
    decreases a, 2
  {
    if !NamesFields(key) {
      EditSymmetric(a, b);
    } else {
      var name :| name in a.fields && name in b.fields && a.fields - {name} == b.fields - {name}
        && Edit(a.fields[name], b.fields[name]);
      EditSymmetric(a.fields[name], b.fields[name]);
    }
  }

  // ----- Edits inside a larger schema -----

  lemma EditUnderKey(fields: map<string, Value>, key: string, x: Value, y: Value)
    requires key != DESCRIPTION && EditChild(key, x, y)
    ensures Edit(Object(fields[key := x]), Object(fields[key := y]))
  {
    var f, g := fields[key := x], fields[key := y];
    assert f - {key} == g - {key} && f[key] == x && g[key] == y;
  }

  lemma EditUnderName(key: string, fields: map<string, Value>, name: string, x: Value, y: Value)
    requires NamesFields(key) && Edit(x, y)
    ensures EditChild(key, Object(fields[name := x]), Object(fields[name := y]))
  {
    var f, g := fields[name := x], fields[name := y];
    assert f - {name} == g - {name} && f[name] == x && g[name] == y;
  }

  lemma EditAtIndex(items: seq<Value>, i: nat, x: Value, y: Value)
    requires i < |items| && Edit(x, y)
    ensures Edit(Array(items[i := x]), Array(items[i := y]))
  {
    var s, t := items[i := x], items[i := y];
    assert s[i] == x && t[i] == y && t == s[i := t[i]];
  }

  lemma LiftKey(fields: map<string, Value>, key: string, x: Value, y: Value)
    requires key != DESCRIPTION && Linked(Edits(Some(key)), x, y)
    ensures Linked(Edits(None), Object(fields[key := x]), Object(fields[key := y]))
  {
    var wrap := (z: Value) => Object(fields[key := z]);
    forall p, q | Edits(Some(key))(p, q) ensures Edits(None)(wrap(p), wrap(q)) {
      EditUnderKey(fields, key, p, q);
    }
    LinkedInside(Edits(Some(key)), Edits(None), wrap, x, y);
  }

  lemma LiftName(key: string, fields: map<string, Value>, name: string, x: Value, y: Value)
    requires NamesFields(key) && Linked(Edits(None), x, y)
    ensures Linked(Edits(Some(key)), Object(fields[name := x]), Object(fields[name := y]))
  {
    var wrap := (z: Value) => Object(fields[name := z]);
    forall p, q | Edits(None)(p, q) ensures Edits(Some(key))(wrap(p), wrap(q)) {
      EditUnderName(key, fields, name, p, q);
    }
    LinkedInside(Edits(None), Edits(Some(key)), wrap, x, y);
  }

  lemma LiftIndex(items: seq<Value>, i: nat, x: Value, y: Value)
    requires i < |items| && Linked(Edits(None), x, y)
    ensures Linked(Edits(None), Array(items[i := x]), Array(items[i := y]))
  {
    var wrap := (z: Value) => Array(items[i := z]);
    forall p, q | Edits(None)(p, q) ensures Edits(None)(wrap(p), wrap(q)) {
      EditAtIndex(items, i, p, q);
    }
    LinkedInside(Edits(None), Edits(None), wrap, x, y);
  }

  lemma LiftKeyword(key: string, x: Value, y: Value)
    requires !NamesFields(key) && Linked(Edits(None), x, y)
    ensures Linked(Edits(Some(key)), x, y)
  {
    var wrap := (z: Value) => z;
    assert forall p, q :: Edits(None)(p, q) ==> Edits(Some(key))(wrap(p), wrap(q));
    LinkedInside(Edits(None), Edits(Some(key)), wrap, x, y);
  }

  // ----- Every schema can be edited into its stripped form -----

  /** `fields` with the keys in `done` stripped. */
  ghost function PartStripped(fields: map<string, Value>, done: set<string>): map<string, Value> {
    map key | key in fields :: if key in done then StripChild(key, fields[key]) else fields[key]
  }

  ghost function PartNamed(named: Value, done: set<string>): map<string, Value>
    requires named.Object?
  {
    map name | name in named.fields :: if name in done then Strip(named.fields[name]) else named.fields[name]
  }

  lemma {:induction false} EditsToStrip(v: Value)
    ensures Linked(Edits(None), v, Strip(v))
    decreases v, 3
  {
    match v
    case Object(fields) =>
      var bare := fields - {DESCRIPTION};
      assert bare - {DESCRIPTION} == fields - {DESCRIPTION};
      LinkedByStep(Edits(None), v, Object(bare));
      EditsKeys(v, bare, bare.Keys);
      assert PartStripped(bare, bare.Keys) == Strip(v).fields;
      LinkedTransitive(Edits(None), v, Object(bare), Strip(v));
    case Array(items) =>
      EditsItems(v, |items|);
      var all := Strip(v).items;
      assert all[..|items|] + items[|items|..] == all;
    case _ => LinkedToSelf(Edits(None), v);
  }

  /** The first `k` items of an array can be stripped by edits. */
  lemma {:induction false} EditsItems(v: Value, k: nat)
    requires v.Array? && k <= |v.items|
    ensures Linked(Edits(None), v, Array(Strip(v).items[..k] + v.items[k..]))
    decreases v, 2, k
  {
    var all := Strip(v).items;
    if k == 0 {
      assert all[..0] + v.items[0..] == v.items;
      LinkedToSelf(Edits(None), v);
    } else {
      EditsItems(v, k - 1);
      EditsToStrip(v.items[k - 1]);
      var before, after := all[..k - 1] + v.items[k - 1..], all[..k] + v.items[k..];
      LiftIndex(before, k - 1, v.items[k - 1], Strip(v.items[k - 1]));
      assert before[k - 1 := v.items[k - 1]] == before;
      assert before[k - 1 := Strip(v.items[k - 1])] == after;
      LinkedTransitive(Edits(None), v, Array(before), Array(after));
    }
  }

  /** The keys in `done` of an object inside `v` can be stripped by edits. */
  lemma {:induction false} EditsKeys(v: Value, fields: map<string, Value>, done: set<string>)
    requires v.Object? && (forall key :: key in fields ==> key in v.fields && v.fields[key] == fields[key])
    requires done <= fields.Keys && DESCRIPTION !in done
    ensures Linked(Edits(None), Object(fields), Object(PartStripped(fields, done)))
    decreases v, 2, |done|
  {
    if done == {} {
      assert PartStripped(fields, {}) == fields;
      LinkedToSelf(Edits(None), Object(fields));
    } else {
      var key :| key in done;
      var rest := done - {key};
      EditsKeys(v, fields, rest);
      EditsChild(key, fields[key]);
      var before := PartStripped(fields, rest);
      LiftKey(before, key, fields[key], StripChild(key, fields[key]));
      assert before[key := fields[key]] == before;
      assert before[key := StripChild(key, fields[key])] == PartStripped(fields, done);
      LinkedTransitive(Edits(None), Object(fields), Object(before), Object(PartStripped(fields, done)));
    }
  }

  lemma {:induction false} EditsChild(key: string, child: Value)
    ensures Linked(Edits(Some(key)), child, StripChild(key, child))
    decreases child, 5
  {
    if !NamesFields(key) {
      EditsToStrip(child);
      LiftKeyword(key, child, Strip(child));
    } else if child.Object? {
      EditsNames(key, child, child.fields.Keys);
      assert PartNamed(child, child.fields.Keys) == StripNamed(child);
    } else {
      LinkedToSelf(Edits(Some(key)), child);
    }
  }

  /** The fields in `done` of a map of named fields can be stripped by edits. */
  lemma {:induction false} EditsNames(key: string, named: Value, done: set<string>)
    requires NamesFields(key) && named.Object? && done <= named.fields.Keys
    ensures Linked(Edits(Some(key)), named, Object(PartNamed(named, done)))
    decreases named, 4, |done|
  {
    if done == {} {
      assert PartNamed(named, {}) == named.fields;
      LinkedToSelf(Edits(Some(key)), named);
    } else {
      var name :| name in done;
      var rest := done - {name};
      EditsNames(key, named, rest);
      EditsToStrip(named.fields[name]);
      var before := PartNamed(named, rest);
      LiftName(key, before, name, named.fields[name], Strip(named.fields[name]));
      assert before[name := named.fields[name]] == before;
      assert before[name := Strip(named.fields[name])] == PartNamed(named, done);
      LinkedTransitive(Edits(Some(key)), named, Object(before), Object(PartNamed(named, done)));
    }
  }

  // ----- The stripped form is exactly the config contract -----

  lemma {:induction false} ChainKeeps(r: Relation, f: Value -> Value, a: Value, b: Value, n: nat)
    requires forall x, y :: r(x, y) ==> f(x) == f(y)
    requires Chain(r, a, b, n)
    ensures f(a) == f(b)
    decreases n
  {
    if n > 0 {
      var m :| r(a, m) && Chain(r, m, b, n - 1);
      ChainKeeps(r, f, m, b, n - 1);
    }
  }

  lemma ChainKeepsStrip(a: Value, b: Value, n: nat)
    requires Chain(Edits(None), a, b, n)
    ensures Strip(a) == Strip(b)
  {
    forall x, y | Edits(None)(x, y) ensures Strip(x) == Strip(y) {
      EditKeepsStrip(x, y);
    }
    ChainKeeps(Edits(None), Strip, a, b, n);
  }

  lemma EditedSymmetric(a: Value, b: Value)
    requires Edited(a, b)
    ensures Edited(b, a)
  {
    forall x, y | Edits(None)(x, y) ensures Edits(None)(y, x) {
      EditSymmetric(x, y);
    }
    var n :| Chain(Edits(None), a, b, n);
    ChainReverses(Edits(None), a, b, n);
  }

  /** Two schemas strip to the same form exactly when edits of doc text alone turn one into the other. */
  lemma SameContractIff(a: Value, b: Value)
    ensures Strip(a) == Strip(b) <==> Edited(a, b)
  {
    if Strip(a) == Strip(b) {
      EditsToStrip(a);
      EditsToStrip(b);
      EditedSymmetric(b, Strip(b));
      LinkedTransitive(Edits(None), a, Strip(a), b);
    }
    if Edited(a, b) {
      var n :| Chain(Edits(None), a, b, n);
      ChainKeepsStrip(a, b, n);
    }
  }
}

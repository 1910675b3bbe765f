/** Request bodies and what a Mongoose schema does with them: read a path, cast it to the
    path's type, fall back to a default, and check `required`. */
module Schema {
  import opened Wrappers

  /** A value of a parsed JSON request body. A string that a schema casts to an ObjectId or
      to a Date is shown as the id (`JId`) or the instant in milliseconds (`JDate`) it denotes. */
  datatype Json =
    | JNull
    | JBool(b: bool)
    | JNum(n: real)
    | JStr(s: string)
    | JId(id: nat)
    | JDate(t: int)
    | JArr(elems: seq<Json>)
    | JObj(fields: map<string, Json>)

  /** `req.body`: the keys the client sent, each with its value. */
  type Body = map<string, Json>

  /** One path of a body, read for a schema path of type `T`: missing (`undefined`), `null`,
      a value of the right type, or a value that cannot be cast. */
  datatype Field<T> = Absent | Null | Given(v: T) | Mismatch

  function StringAt(body: Body, key: string): Field<string> {
    if key !in body then Absent
    else match body[key]
      case JNull => Null
      case JStr(s) => Given(s)
      case _ => Mismatch
  }

  function NumberAt(body: Body, key: string): Field<real> {
    if key !in body then Absent
    else match body[key]
      case JNull => Null
      case JNum(n) => Given(n)
      case _ => Mismatch
  }

  function BooleanAt(body: Body, key: string): Field<bool> {
    if key !in body then Absent
    else match body[key]
      case JNull => Null
      case JBool(b) => Given(b)
      case _ => Mismatch
  }

  function DateAt(body: Body, key: string): Field<int> {
    if key !in body then Absent
    else match body[key]
      case JNull => Null
      case JDate(t) => Given(t)
      case _ => Mismatch
  }

  function IdAt(body: Body, key: string): Field<nat> {
    if key !in body then Absent
    else match body[key]
      case JNull => Null
      case JId(id) => Given(id)
      case _ => Mismatch
  }

  /** How a stored optional value is written back into a document: nothing becomes `null`. */
  function OptText(x: Option<string>): Json {
    if x.Some? then JStr(x.value) else JNull
  }

  function OptNum(x: Option<real>): Json {
    if x.Some? then JNum(x.value) else JNull
  }

  function OptBool(x: Option<bool>): Json {
    if x.Some? then JBool(x.value) else JNull
  }

  function OptDate(x: Option<int>): Json {
    if x.Some? then JDate(x.value) else JNull
  }

  /** How a path written by `OptText`, `OptNum`, `OptBool` or `OptDate` reads back. */
  function OptField<T(!new)>(x: Option<T>): (f: Field<T>)
    ensures Optional(f) == Some(x)
    ensures forall d: T {:trigger Defaulted(f, d)} :: Defaulted(f, d) == Some(x)
    ensures forall cur: Option<T> {:trigger PatchOptional(cur, f)} :: PatchOptional(cur, f) == Some(x)
  {
    if x.Some? then Given(x.value) else Null
  }

  /** The value a path holds once read, or nothing. */
  function Present<T>(f: Field<T>): Option<T> {
    if f.Given? then Some(f.v) else None
  }

  /** A required path: only a present, non-null value passes (`required: true`). Required
      strings must in addition be non-empty, which each record's `Conforms` checks. */
  function Required<T>(f: Field<T>): (r: Option<T>)
    ensures r.Some? <==> f.Given?
  {
    if f.Given? then Some(f.v) else None
  }

  /** An optional path without a default: missing or null is stored as nothing. */
  function Optional<T>(f: Field<T>): (r: Option<Option<T>>)
    ensures r.None? <==> f.Mismatch?
  {
    match f
    case Absent => Some(None)
    case Null => Some(None)
    case Given(v) => Some(Some(v))
    case Mismatch => None
  }

  /** A path with `default: d`: a missing value takes the default; an explicit null is kept. */
  function Defaulted<T>(f: Field<T>, d: T): (r: Option<Option<T>>)
    ensures r.None? <==> f.Mismatch?
    ensures f.Absent? ==> r == Some(Some(d))
  {
    match f
    case Absent => Some(Some(d))
    case Null => Some(None)
    case Given(v) => Some(Some(v))
    case Mismatch => None
  }

  /** `min: lo` on a nullable number: null passes, as Mongoose's min validator skips it. */
  predicate AtLeast(x: Option<real>, lo: real) {
    x.None? || x.value >= lo
  }

  /** `min: 0, max: 100` on a nullable number (percentages). */
  predicate Percent(x: Option<real>) {
    x.None? || 0.0 <= x.value <= 100.0
  }

  /** An update of a path whose current value is `cur`: a missing key leaves it, a value replaces
      it. `null` on a path that cannot hold it is refused, like a value that cannot be cast. */
  function PatchValue<T>(cur: T, f: Field<T>): (r: Option<T>)
    ensures f.Absent? ==> r == Some(cur)
    ensures r.None? <==> f.Null? || f.Mismatch?
  {
    match f
    case Absent => Some(cur)
    case Given(v) => Some(v)
    case _ => None
  }

  /** What an update leaves on a path of a stored record: the stored value `cur` when the update
      lacks the key, and the update's value when it gives one. */
  predicate Written<T(==)>(cur: T, f: Field<T>, v: T) {
    (f.Absent? ==> v == cur) && (f.Given? ==> v == f.v)
  }

  /** The same for a nullable path, where an explicit `null` clears the stored value. */
  predicate WrittenOptional<T(==)>(cur: Option<T>, f: Field<T>, v: Option<T>) {
    (f.Absent? ==> v == cur) && (f.Null? ==> v == None) && (f.Given? ==> v == Some(f.v))
  }

  /** An update of a nullable path: a missing key leaves it, `null` clears it, a value replaces it. */
  function PatchOptional<T>(cur: Option<T>, f: Field<T>): (r: Option<Option<T>>)
    ensures f.Absent? ==> r == Some(cur)
    ensures r.None? <==> f.Mismatch?
  {
    match f
    case Absent => Some(cur)
    case Null => Some(None)
    case Given(v) => Some(Some(v))
    case Mismatch => None
  }

  /** `{ ..., to: body.from }` in an object literal: a key the body lacks stays missing
      (`undefined` is dropped by the cast). */
  function CopyKey(body: Body, from: string, to: string, doc: Body): Body {
    if from in body then doc[to := body[from]] else doc
  }

  /** `{ ...body, k1: v1, k2: v2, ... }`: the body with each pair written over it in turn. */
  function Overlay(body: Body, pairs: seq<(string, Json)>): Body
    decreases |pairs|
  {
    if pairs == [] then body else Overlay(body[pairs[0].0 := pairs[0].1], pairs[1..])
  }

  /** The keys an overlay writes. */
  function KeysOf(pairs: seq<(string, Json)>): (r: set<string>)
    ensures forall i :: 0 <= i < |pairs| ==> pairs[i].0 in r
    ensures forall k :: k in r ==> exists i :: 0 <= i < |pairs| && pairs[i].0 == k
  {
    set i | 0 <= i < |pairs| :: pairs[i].0
  }

  /** A key the overlay does not write keeps the body's value, or stays missing. */
  lemma {:induction false} OverlayPassesThrough(body: Body, pairs: seq<(string, Json)>, key: string)
    requires key !in KeysOf(pairs)
    ensures key in Overlay(body, pairs) <==> key in body
    ensures key in body ==> Overlay(body, pairs)[key] == body[key]
    decreases |pairs|
  {
    if pairs != [] {
      assert key != pairs[0].0;
      assert KeysOf(pairs[1..]) <= KeysOf(pairs) by {
        forall k | k in KeysOf(pairs[1..]) ensures k in KeysOf(pairs) {
          var i :| 0 <= i < |pairs[1..]| && pairs[1..][i].0 == k;
          assert pairs[i + 1].0 == k;
        }
      }
      OverlayPassesThrough(body[pairs[0].0 := pairs[0].1], pairs[1..], key);
    }
  }

  /** The last pair written under a key is the value the overlay holds there. */
  lemma {:induction false} OverlayWrites(body: Body, pairs: seq<(string, Json)>, i: nat)
    requires i < |pairs|
    requires forall j :: i < j < |pairs| ==> pairs[j].0 != pairs[i].0
    ensures pairs[i].0 in Overlay(body, pairs) && Overlay(body, pairs)[pairs[i].0] == pairs[i].1
    decreases |pairs|
  {
    var b := body[pairs[0].0 := pairs[0].1];
    if i == 0 {
      assert pairs[0].0 !in KeysOf(pairs[1..]) by {
        forall j | 0 <= j < |pairs[1..]| ensures pairs[1..][j].0 != pairs[0].0 {
          assert pairs[1..][j] == pairs[j + 1];
        }
      }
      OverlayPassesThrough(b, pairs[1..], pairs[0].0);
    } else {
      OverlayWrites(b, pairs[1..], i - 1);
    }
  }

  /** Whatever the body holds under a key the overlay writes is lost. */
  lemma {:induction false} OverlayHides(body: Body, pairs: seq<(string, Json)>, key: string, v: Json)
    requires key in KeysOf(pairs)
    ensures Overlay(body[key := v], pairs) == Overlay(body, pairs)
    decreases |pairs|
  {
    var k0 := pairs[0].0;
    var v0 := pairs[0].1;
    if k0 == key {
      assert body[key := v][k0 := v0] == body[k0 := v0];
    } else {
      assert body[key := v][k0 := v0] == body[k0 := v0][key := v];
      var i :| 0 <= i < |pairs| && pairs[i].0 == key;
      assert pairs[1..][i - 1].0 == key;
      OverlayHides(body[k0 := v0], pairs[1..], key, v);
    }
  }

  /** Casts every element of an array with `cast`; one element that does not cast fails the whole array. */
  function Each<L>(elems: seq<Json>, cast: Json -> Option<L>): (r: Option<seq<L>>)
    ensures r.Some? ==> |r.value| == |elems|
    ensures r.Some? ==> forall i :: 0 <= i < |elems| ==> cast(elems[i]) == Some(r.value[i])
    ensures r.None? ==> exists i :: 0 <= i < |elems| && cast(elems[i]).None?
  {
    if elems == [] then Some([])
    else
      var head :- cast(elems[0]);
      var tail :- Each(elems[1..], cast);
      Some([head] + tail)
  }

  /** Elements that each cast to the matching value cast, all together, to those values. */
  lemma {:induction false} EachCasts<L>(elems: seq<Json>, cast: Json -> Option<L>, ls: seq<L>)
    requires |elems| == |ls|
    requires forall i :: 0 <= i < |elems| ==> cast(elems[i]) == Some(ls[i])
    ensures Each(elems, cast) == Some(ls)
  {
    if elems != [] {
      assert cast(elems[0]) == Some(ls[0]);
      EachCasts(elems[1..], cast, ls[1..]);
      assert [ls[0]] + ls[1..] == ls;
    }
  }

  /** An array path of subdocuments, each cast with `cast`. */
  function ArrayAt<L>(body: Body, key: string, cast: Json -> Option<L>): Field<seq<L>> {
    if key !in body then Absent
    else match body[key]
      case JNull => Null
      case JArr(elems) => (match Each(elems, cast) case Some(ls) => Given(ls) case None => Mismatch)
      case _ => Mismatch
  }
}

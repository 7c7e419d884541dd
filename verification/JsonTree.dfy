/** JSON values as trees (RFC 8259, section 4: the names of an object are unique), and the effect on them of
    jsonparser's Get and Set. */
module JsonTree {
  import opened Text
  import opened Kube

  datatype Json =
    | Null
    | Bool(value: bool)
    | Int(number: int)
    | Fraction(literal: string)
    | Str(text: string)
    | Arr(items: seq<Json>)
    | Obj(fields: map<string, Json>)

  predicate IsDigits(s: string) {
    s != "" && forall c | c in s :: '0' <= c <= '9'
  }

  /** The index a key like "[3]" selects in an array. */
  function ArrayIndex(key: string): Option<int> {
    if |key| >= 3 && key[0] == '[' && IsDigits(key[1..|key| - 1]) then Some(ParseNat(key[1..|key| - 1])) else None
  }

  /** The member or element that one key selects. */
  function Child(j: Json, key: string): Option<Json> {
    match j
    case Obj(fields) => if key in fields then Some(fields[key]) else None
    case Arr(items) =>
      (match ArrayIndex(key)
       case Some(i) => if 0 <= i < |items| then Some(items[i]) else None
       case None => None)
    case _ => None
  }

  function WithChild(j: Json, key: string, v: Json): (r: Json)
    requires Child(j, key).Some?
    ensures Child(r, key) == Some(v)
  {
    match j
    case Obj(fields) => Obj(fields[key := v])
    case Arr(items) => Arr(items[ArrayIndex(key).value := v])
  }

  function Get(j: Json, path: seq<string>): Option<Json> {
    if path == [] then Some(j)
    else match Child(j, path[0])
      case Some(c) => Get(c, path[1..])
      case None => None
  }

  /** Set on a path that exists. */
  function Replace(j: Json, v: Json, path: seq<string>): Json
    requires Get(j, path).Some?
  {
    if path == [] then v else WithChild(j, path[0], Replace(Child(j, path[0]).value, v, path[1..]))
  }

  function Nest(v: Json, path: seq<string>): Json {
    if path == [] then v else Obj(map[path[0] := Nest(v, path[1..])])
  }

  /** Set on a path that does not exist: an object on the way gets a new member, anything else in the way is
      overwritten.  The missing names are plain names, not array indices. */
  function Insert(j: Json, v: Json, path: seq<string>): Json {
    if path == [] then v
    else match Child(j, path[0])
      case Some(c) => WithChild(j, path[0], Insert(c, v, path[1..]))
      case None => Obj((if j.Obj? then j.fields else map[])[path[0] := Nest(v, path[1..])])
  }

  function Set(j: Json, v: Json, path: seq<string>): Option<Json> {
    if path == [] then None
    else if Get(j, path).Some? then Some(Replace(j, v, path))
    else if Child(j, path[0]).None? && !j.Obj? then None
    else Some(Insert(j, v, path))
  }

  lemma {:induction false} DecimalIsDigits(n: nat)
    ensures IsDigits(DecimalNat(n))
  {
    if n >= 10 {
      DecimalIsDigits(n / 10);
    }
  }

  /** A name selects the member of an object, and a number in brackets the element of an array, counted from 0. */
  lemma ReadsMembersAndElements(members: map<string, Json>, name: string, elements: seq<Json>, i: nat, q: seq<string>)
    ensures Get(Obj(members), [name] + q) == if name in members then Get(members[name], q) else None
    ensures Get(Arr(elements), ["[" + DecimalNat(i) + "]"] + q)
         == if i < |elements| then Get(elements[i], q) else None
    ensures elements != [] ==> Get(Arr(elements), ["[0]"] + q) == Get(elements[0], q)
  {
    var key := "[" + DecimalNat(i) + "]";
    ParseDecimal(i);
    DecimalIsDigits(i);
    assert key[1..|key| - 1] == DecimalNat(i);
    assert ([name] + q)[1..] == q && ([key] + q)[1..] == q;
    assert (["[0]"] + q)[1..] == q && "[0]"[1..2] == "0" == DecimalNat(0);
    ParseDecimal(0);
  }

  // ---------------------------------------------------------------- reading back

  /** Two keys that select the same member or element of some value. */
  predicate SameStep(a: string, b: string) {
    a == b || (ArrayIndex(a).Some? && ArrayIndex(a) == ArrayIndex(b))
  }

  /** Paths that part before either ends. */
  predicate Disjoint(p: seq<string>, q: seq<string>) {
    p != [] && q != [] && (!SameStep(p[0], q[0]) || Disjoint(p[1..], q[1..]))
  }

  lemma WithChildElsewhere(j: Json, a: string, v: Json, b: string)
    requires Child(j, a).Some? && !SameStep(a, b)
    ensures Child(WithChild(j, a, v), b) == Child(j, b)
  {
  }

  lemma WithChildSame(j: Json, a: string, v: Json, b: string)
    requires Child(j, a).Some?
    ensures Child(WithChild(j, a, v), b) == Some(v) || Child(WithChild(j, a, v), b) == Child(j, b)
    ensures Child(WithChild(j, a, v), b) != Child(j, b) ==> Child(j, b) == Child(j, a)
  {
  }

  /** What was written is read back, at the path and below it. */
  lemma {:induction false} GetReplaced(j: Json, v: Json, p: seq<string>, q: seq<string>)
    requires Get(j, p).Some?
    ensures Get(Replace(j, v, p), p + q) == Get(v, q)
  {
    if p == [] {
      assert p + q == q;
    } else {
      GetReplaced(Child(j, p[0]).value, v, p[1..], q);
      assert (p + q)[1..] == p[1..] + q;
    }
  }

  /** Every disjoint path reads as before. */
  lemma {:induction false} GetElsewhere(j: Json, v: Json, p: seq<string>, q: seq<string>)
    requires Get(j, p).Some? && Disjoint(p, q)
    ensures Get(Replace(j, v, p), q) == Get(j, q)
  {
    var c := Child(j, p[0]).value;
    if SameStep(p[0], q[0]) {
      GetElsewhere(c, v, p[1..], q[1..]);
      WithChildSame(j, p[0], Replace(c, v, p[1..]), q[0]);
    } else {
      WithChildElsewhere(j, p[0], Replace(c, v, p[1..]), q[0]);
    }
  }

  /** Reading along a longer path is reading the rest from where the first part leads. */
  lemma {:induction false} GetAppend(j: Json, p: seq<string>, q: seq<string>)
    ensures Get(j, p + q) == match Get(j, p) case Some(c) => Get(c, q) case None => None
  {
    if p == [] {
      assert p + q == q;
    } else {
      assert (p + q)[1..] == p[1..] + q;
      if Child(j, p[0]).Some? {
        GetAppend(Child(j, p[0]).value, p[1..], q);
      }
    }
  }

  lemma {:induction false} GetNested(v: Json, p: seq<string>)
    ensures Get(Nest(v, p), p) == Some(v)
  {
    if p != [] {
      GetNested(v, p[1..]);
    }
  }

  lemma {:induction false} GetInserted(j: Json, v: Json, p: seq<string>)
    ensures Get(Insert(j, v, p), p) == Some(v)
  {
    if p != [] {
      match Child(j, p[0])
      case Some(c) => GetInserted(c, v, p[1..]);
      case None => GetNested(v, p[1..]);
    }
  }

  /** A successful Set is read back. */
  lemma GetSet(j: Json, v: Json, p: seq<string>)
    requires Set(j, v, p).Some?
    ensures Get(Set(j, v, p).value, p) == Some(v)
  {
    if Get(j, p).Some? {
      GetReplaced(j, v, p, []);
      assert p + [] == p;
    } else {
      GetInserted(j, v, p);
    }
  }

  /** Nothing on the way to `p` but objects, as far as the way exists. */
  predicate ObjectsAlong(j: Json, p: seq<string>) {
    p == [] || (j.Obj? && (Child(j, p[0]).None? || |p| == 1 || ObjectsAlong(Child(j, p[0]).value, p[1..])))
  }

  lemma {:induction false} NestElsewhere(v: Json, p: seq<string>, q: seq<string>)
    requires Disjoint(p, q)
    ensures Get(Nest(v, p), q) == None
  {
    if p[0] == q[0] {
      NestElsewhere(v, p[1..], q[1..]);
    }
  }

  /** Inserting below objects leaves every disjoint path as it was. */
  lemma {:induction false} GetElsewhereInserted(j: Json, v: Json, p: seq<string>, q: seq<string>)
    requires ObjectsAlong(j, p) && Get(j, p).None? && Disjoint(p, q)
    ensures Get(Insert(j, v, p), q) == Get(j, q)
  {
    match Child(j, p[0])
    case Some(c) =>
      if p[0] == q[0] {
        GetElsewhereInserted(c, v, p[1..], q[1..]);
      }
    case None =>
      if p[0] == q[0] {
        NestElsewhere(v, p[1..], q[1..]);
      }
  }

  /** A successful Set below objects leaves every disjoint path as it was. */
  lemma SetElsewhere(j: Json, v: Json, p: seq<string>, q: seq<string>)
    requires Set(j, v, p).Some? && ObjectsAlong(j, p) && Disjoint(p, q)
    ensures Get(Set(j, v, p).value, q) == Get(j, q)
  {
    if Get(j, p).Some? {
      GetElsewhere(j, v, p, q);
    } else {
      GetElsewhereInserted(j, v, p, q);
    }
  }

  /** Setting a path in an object leaves every path that starts with another key as it was. */
  lemma SetBeside(j: Json, v: Json, p: seq<string>, q: seq<string>)
    requires Set(j, v, p).Some? && j.Obj? && q != [] && p[0] != q[0]
    ensures Get(Set(j, v, p).value, q) == Get(j, q)
  {
  }
}

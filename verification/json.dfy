/** Decoded JSON values as the PHP code sees them. Objects and associative
    arrays keep their members in insertion order, as PHP arrays do, because
    `foreach` over a digested request depends on that order. */
module Json {
  import opened Wrappers
  import opened Bytes

  datatype Json =
    | JNull
    | JBool(b: bool)
    | JInt(i: int)
    | JStr(s: Bytes)
    | JArr(items: seq<Json>)
    | JObj(members: seq<Member>)

  datatype Member = Member(key: Bytes, value: Json)

  /** The value of the first member named `k`. */
  function Lookup(ms: seq<Member>, k: Bytes): Option<Json>
  {
    if |ms| == 0 then None
    else if ms[0].key == k then Some(ms[0].value)
    else Lookup(ms[1..], k)
  }

  /** `$j->k` (or `$j['k']`): null when `j` is not an object or lacks `k`. */
  function Get(j: Json, k: Bytes): Json {
    if j.JObj? then Lookup(j.members, k).GetOr(JNull) else JNull
  }

  /** `isset($j->k)`: present and not null. */
  predicate Has(j: Json, k: Bytes) {
    Get(j, k) != JNull
  }

  /** Object literals `['k1' => v1, ...]` with distinct keys. */
  function Obj1(k1: Bytes, v1: Json): (r: Json)
    ensures r.JObj? && Get(r, k1) == v1
  {
    JObj([Member(k1, v1)])
  }

  /** A one-member object has no other member. */
  lemma Obj1Lacks(k1: Bytes, v1: Json, k: Bytes)
    requires k != k1
    ensures Get(Obj1(k1, v1), k) == JNull
  {
    var ms := [Member(k1, v1)];
    assert ms[1..] == [];
    assert Lookup(ms, k) == Lookup(ms[1..], k);
  }

  function Obj2(k1: Bytes, v1: Json, k2: Bytes, v2: Json): (r: Json)
    requires k1 != k2
    ensures r.JObj? && Get(r, k1) == v1 && Get(r, k2) == v2
    ensures Values(r) == [v1, v2]
  {
    var ms := [Member(k1, v1), Member(k2, v2)];
    assert ms[1..] == [Member(k2, v2)];
    assert Lookup(ms[1..], k2) == Some(v2);
    JObj(ms)
  }

  function Obj3(k1: Bytes, v1: Json, k2: Bytes, v2: Json, k3: Bytes, v3: Json): (r: Json)
    requires k1 != k2 && k1 != k3 && k2 != k3
    ensures r.JObj? && Get(r, k1) == v1 && Get(r, k2) == v2 && Get(r, k3) == v3
  {
    var ms := [Member(k1, v1), Member(k2, v2), Member(k3, v3)];
    assert ms[1..] == [Member(k2, v2), Member(k3, v3)];
    assert ms[1..][1..] == [Member(k3, v3)];
    assert Lookup(ms[1..], k2) == Some(v2);
    assert Lookup(ms[1..][1..], k3) == Some(v3);
    assert Lookup(ms[1..], k3) == Some(v3);
    JObj(ms)
  }

  /** The string `s`, as a JSON value: `$j->k === 's'`. */
  predicate IsStr(j: Json, s: Bytes) {
    j == JStr(s)
  }

  /** Looking up in a list with a known first member. */
  lemma LookupCons(m: Member, rest: seq<Member>)
    ensures forall k :: Lookup([m] + rest, k) == if m.key == k then Some(m.value) else Lookup(rest, k)
  {
    forall k
      ensures Lookup([m] + rest, k) == if m.key == k then Some(m.value) else Lookup(rest, k)
    {
      assert ([m] + rest)[0] == m;
      assert ([m] + rest)[1..] == rest;
    }
  }

  function PutMember(ms: seq<Member>, k: Bytes, v: Json): (r: seq<Member>)
    ensures Lookup(r, k) == Some(v)
    ensures forall k' :: k' != k ==> Lookup(r, k') == Lookup(ms, k')
    ensures Lookup(ms, k).Some? ==> |r| == |ms|
    ensures Lookup(ms, k).None? ==> r == ms + [Member(k, v)]
  {
    if |ms| == 0 then [Member(k, v)]
    else
      LookupCons(ms[0], ms[1..]);
      assert ms == [ms[0]] + ms[1..];
      if ms[0].key == k then
        LookupCons(Member(k, v), ms[1..]);
        [Member(k, v)] + ms[1..]
      else
        var rest := PutMember(ms[1..], k, v);
        LookupCons(ms[0], rest);
        [ms[0]] + rest
  }

  /** `$j->k = v`: an existing member keeps its place, a new one goes last.
      On null PHP creates a fresh object; the model does the same for any
      non-object, a case the connector never reaches. */
  function Put(j: Json, k: Bytes, v: Json): (r: Json)
    ensures r.JObj?
    ensures Get(r, k) == v
    ensures j.JObj? ==> forall k' :: k' != k ==> Get(r, k') == Get(j, k')
  {
    if j.JObj? then JObj(PutMember(j.members, k, v)) else JObj([Member(k, v)])
  }

  function RemoveMember(ms: seq<Member>, k: Bytes): (r: seq<Member>)
    ensures Lookup(r, k).None?
    ensures forall k' :: k' != k ==> Lookup(r, k') == Lookup(ms, k')
    ensures |r| <= |ms|
  {
    if |ms| == 0 then []
    else if ms[0].key == k then RemoveMember(ms[1..], k)
    else [ms[0]] + RemoveMember(ms[1..], k)
  }

  /** `unset($j['k'])`. */
  function Unset(j: Json, k: Bytes): (r: Json)
    ensures !Has(r, k)
    ensures forall k' :: k' != k ==> Get(r, k') == Get(j, k')
  {
    if j.JObj? then JObj(RemoveMember(j.members, k)) else j
  }

  /** The values `foreach ($j as $v)` visits, in order. */
  function Values(j: Json): (r: seq<Json>)
    ensures j.JArr? ==> r == j.items
    ensures j.JObj? ==> |r| == |j.members|
    ensures j.JObj? ==> forall i :: 0 <= i < |r| ==> r[i] == j.members[i].value
  {
    match j
    case JArr(items) => items
    case JObj(ms) => seq(|ms|, i requires 0 <= i < |ms| => ms[i].value)
    case _ => []
  }

  /** The two strings PHP treats as false. */
  predicate FalsyString(s: Bytes) {
    s == [] || s == ['0']
  }

  /** `empty($j)`. Objects (PHP `stdClass`) are never empty. */
  predicate Empty(j: Json) {
    match j
    case JNull => true
    case JBool(b) => !b
    case JInt(i) => i == 0
    case JStr(s) => FalsyString(s)
    case JArr(items) => |items| == 0
    case JObj(_) => false
  }

  /** A value used in a PHP condition. */
  predicate Truthy(j: Json) {
    !Empty(j)
  }

  /** PHP's conversion of a scalar to a string. Lists and objects have no
      string form the connector could use: the conversion fails. */
  function PhpString(j: Json): (r: Option<Bytes>)
    ensures j.JStr? ==> r == Some(j.s)
    ensures r.None? <==> j.JArr? || j.JObj?
  {
    match j
    case JNull => Some([])
    case JBool(b) => Some(if b then ['1'] else [])
    case JInt(i) => Some(IntToDecimal(i))
    case JStr(s) => Some(s)
    case JArr(_) => None
    case JObj(_) => None
  }
}

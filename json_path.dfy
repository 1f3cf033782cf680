/** JSON documents as the database stores them, and the part of SQL/JSON path
    (PostgreSQL manual, section 9.16.2) the cleanup queries use: the `$.**`
    accessor followed by member accessors. */
module JsonPath {

  /** A decoded JSON value. Objects are maps: jsonb, like a Python dict, keeps
      one value per key. Numbers are integers. */
  datatype Json =
    | JNull
    | JBool(b: bool)
    | JNum(n: int)
    | JStr(s: string)
    | JArr(items: seq<Json>)
    | JObj(members: map<string, Json>)

  /** The values `$.**` selects from `j`: `j` itself and every value nested in
      it, at any depth. */
  function Descendants(j: Json): set<Json>
  {
    match j
    case JArr(a) => {j} + (set i, v | 0 <= i < |a| && v in Descendants(a[i]) :: v)
    case JObj(m) => {j} + (set k, v | k in m && v in Descendants(m[k]) :: v)
    case _ => {j}
  }

  /** The member accessor `.key` on one value: the member's value when `j` is
      an object holding `key`, nothing otherwise. */
  function Member(j: Json, key: string): set<Json>
  {
    if j.JObj? && key in j.members then {j.members[key]} else {}
  }

  /** The member accessor `.key` applied to every value of a path result. */
  function MemberOfAll(values: set<Json>, key: string): set<Json>
  {
    set j, v | j in values && v in Member(j, key) :: v
  }

  /** The result of `$.**.key` on `j` as SQL/JSON path defines it. */
  function AnyDepth(j: Json, key: string): set<Json>
  {
    MemberOfAll(Descendants(j), key)
  }

  /** Recursive-descent visitor: every value stored under `key` in an object
      anywhere inside `j`. */
  function Matches(j: Json, key: string): set<Json>
  {
    match j
    case JArr(a) => set i, v | 0 <= i < |a| && v in Matches(a[i], key) :: v
    case JObj(m) =>
      (if key in m then {m[key]} else {}) + (set k, v | k in m && v in Matches(m[k], key) :: v)
    case _ => {}
  }

  /** The visitor computes exactly what `$.**.key` selects. */
  lemma {:induction false} MatchesIsAnyDepth(j: Json, key: string)
    ensures Matches(j, key) == AnyDepth(j, key)
  {
    match j
    case JArr(a) =>
      forall i | 0 <= i < |a| ensures Matches(a[i], key) == AnyDepth(a[i], key) {
        MatchesIsAnyDepth(a[i], key);
      }
      ArrayMatchesIsAnyDepth(a, key);
    case JObj(m) =>
      forall k | k in m ensures Matches(m[k], key) == AnyDepth(m[k], key) {
        MatchesIsAnyDepth(m[k], key);
      }
      ObjectMatchesIsAnyDepth(m, key);
    case _ =>
      assert Descendants(j) == {j};
  }

  /** The array step: when the visitor agrees with `$.**.key` on every
      element, it agrees on the array. */
  lemma ArrayMatchesIsAnyDepth(a: seq<Json>, key: string)
    requires forall i :: 0 <= i < |a| ==> Matches(a[i], key) == AnyDepth(a[i], key)
    ensures Matches(JArr(a), key) == AnyDepth(JArr(a), key)
  {
    var j := JArr(a);
    forall v | v in Matches(j, key) ensures v in AnyDepth(j, key) {
      var i :| 0 <= i < |a| && v in Matches(a[i], key);
      var d :| d in Descendants(a[i]) && v in Member(d, key);
      assert d in Descendants(j);
    }
    forall v | v in AnyDepth(j, key) ensures v in Matches(j, key) {
      var d :| d in Descendants(j) && v in Member(d, key);
      assert d != j;
      var i :| 0 <= i < |a| && d in Descendants(a[i]);
      assert v in AnyDepth(a[i], key);
    }
  }

  /** The object step: when the visitor agrees with `$.**.key` on every
      member's value, it agrees on the object. */
  lemma ObjectMatchesIsAnyDepth(m: map<string, Json>, key: string)
    requires forall k :: k in m ==> Matches(m[k], key) == AnyDepth(m[k], key)
    ensures Matches(JObj(m), key) == AnyDepth(JObj(m), key)
  {
    var j := JObj(m);
    forall v | v in Matches(j, key) ensures v in AnyDepth(j, key) {
      if key in m && v == m[key] {
        assert v in Member(j, key);
        assert j in Descendants(j);
      } else {
        var k :| k in m && v in Matches(m[k], key);
        var d :| d in Descendants(m[k]) && v in Member(d, key);
        assert d in Descendants(j);
      }
    }
    forall v | v in AnyDepth(j, key) ensures v in Matches(j, key) {
      var d :| d in Descendants(j) && v in Member(d, key);
      if d != j {
        var k :| k in m && d in Descendants(m[k]);
        assert v in AnyDepth(m[k], key);
      }
    }
  }
}

/** The Python built-ins the job applies to values it reads: putting decoded
    JSON values into a set, `set()` of a decoded value, comparing a decoded
    value with a text column, and the POSIX `os.path` functions. */
module PyBuiltins {
  import opened Results
  import opened JsonPath

  /** Python can hash None, booleans, numbers and strings, but not the dicts
      and lists that JSON objects and arrays decode to. */
  predicate Hashable(v: Json)
  {
    !v.JArr? && !v.JObj?
  }

  /** `set(row[0] for row in cur.fetchall())` over query results `values`:
      raises TypeError as soon as one of them is unhashable. */
  function SetOfRows(values: set<Json>): Result<set<Json>>
  {
    if forall v :: v in values ==> Hashable(v) then Ok(values) else Err(UnhashableValue)
  }

  /** `set(x)` for a decoded JSON value `x`: a list gives its elements, a
      string its characters, a dict its keys; None, booleans and numbers are
      not iterable. */
  function SetOf(x: Json): (r: Result<set<Json>>)
  {
    match x
    case JArr(a) =>
      if forall i :: 0 <= i < |a| ==> Hashable(a[i])
      then Ok(set i | 0 <= i < |a| :: a[i])
      else Err(UnhashableValue)
    case JStr(s) => Ok(set i | 0 <= i < |s| :: JStr([s[i]]))
    case JObj(m) => Ok(set k | k in m :: JStr(k))
    case _ => Err(NotIterable)
  }

  /** `set()` of a list holds exactly its elements, and fails exactly when one
      of them is unhashable. */
  lemma SetOfList(a: seq<Json>)
    ensures SetOf(JArr(a)).Ok? <==> forall i :: 0 <= i < |a| ==> Hashable(a[i])
    ensures SetOf(JArr(a)).Ok? ==> forall v :: v in SetOf(JArr(a)).value <==> v in a
  {
    if SetOf(JArr(a)).Ok? {
      forall v | v in a ensures v in SetOf(JArr(a)).value {
        var i :| 0 <= i < |a| && a[i] == v;
      }
    }
  }

  /** `set()` of a string holds its one-character strings, so every element
      is a string of length one and every character of `s` is there. */
  lemma SetOfString(s: string)
    ensures SetOf(JStr(s)).Ok?
    ensures forall v :: v in SetOf(JStr(s)).value ==> v.JStr? && |v.s| == 1 && v.s[0] in s
    ensures forall c :: c in s ==> JStr([c]) in SetOf(JStr(s)).value
  {
    forall c | c in s ensures JStr([c]) in SetOf(JStr(s)).value {
      var i :| 0 <= i < |s| && s[i] == c;
    }
  }

  /** None, booleans and numbers make `set()` raise TypeError. */
  lemma SetOfScalar(x: Json)
    requires x.JNull? || x.JBool? || x.JNum?
    ensures SetOf(x) == Err(NotIterable)
  {
  }

  /** The strings among decoded values: a Python `str` read from a text column
      equals a decoded JSON value exactly when that value is the same string. */
  function TextValues(values: set<Json>): (r: set<string>)
    ensures forall s :: s in r <==> JStr(s) in values
  {
    set v | v in values && v.JStr? :: v.s
  }

  /** `str.rfind` for one character: the index of the last `c` in `s`, or
      -1 when there is none. */
  function RFind(s: string, c: char): (i: int)
    ensures -1 <= i < |s|
    ensures i >= 0 ==> s[i] == c
    ensures forall j :: i < j < |s| ==> s[j] != c
  {
    if s == [] then -1
    else if s[|s| - 1] == c then |s| - 1
    else RFind(s[..|s| - 1], c)
  }

  /** `s` holds no path separator. */
  predicate NoSeparator(s: string)
  {
    forall k :: 0 <= k < |s| ==> s[k] != '/'
  }

  /** POSIX `os.path.basename`: `p[p.rfind('/') + 1:]`. */
  function Basename(p: string): string
  {
    p[RFind(p, '/') + 1..]
  }

  /** The basename is the last component of the path: a suffix of it that
      holds no separator and is either the whole path or preceded by `/`. */
  lemma BasenameIsLastComponent(p: string)
    ensures var b := Basename(p);
      && |b| <= |p| && b == p[|p| - |b|..]
      && NoSeparator(b)
      && (b == p || p[|p| - |b| - 1] == '/')
  {
    var i := RFind(p, '/');
    var b := Basename(p);
    assert |p| - |b| == i + 1;
    assert b == p[i + 1..];
    forall k | 0 <= k < |b| ensures b[k] != '/' {
      assert b[k] == p[i + 1 + k];
    }
    assert NoSeparator(b);
    if i >= 0 {
      assert p[|p| - |b| - 1] == '/';
    } else {
      assert b == p;
    }
  }

  /** The basename of a path whose last separator comes right before `name`
      is `name`. */
  lemma BasenameAfterSeparator(prefix: string, name: string)
    requires prefix == [] || prefix[|prefix| - 1] == '/'
    requires NoSeparator(name)
    ensures Basename(prefix + name) == name
  {
    var p := prefix + name;
    var i := RFind(p, '/');
    forall j | |prefix| <= j < |p| ensures p[j] != '/' {
      assert p[j] == name[j - |prefix|];
    }
    assert i <= |prefix| - 1;
    assert prefix != [] ==> p[|prefix| - 1] == '/';
    assert i == |prefix| - 1;
    assert p[|prefix|..] == name;
  }
}

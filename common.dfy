/** Small building blocks shared by every module: an option type, the
    JavaScript string predicates the source uses (`startsWith`, `endsWith`,
    `trim`), and the array operations its handlers are written with
    (`filter`, `find`, `map`-replace, `filter(...).length`). */
module Common {

  datatype Option<+T> = None | Some(value: T)

  datatype Result<+T, +E> = Success(value: T) | Failure(error: E)

  /** `s.startsWith(p)` */
  predicate StartsWith(s: string, p: string) {
    p <= s
  }

  /** `s.endsWith(suffix)` */
  predicate EndsWith(s: string, suffix: string) {
    |suffix| <= |s| && s[|s| - |suffix|..] == suffix
  }

  lemma {:induction false} StartsWithTransitive(s: string, p: string, q: string)
    requires StartsWith(s, p) && StartsWith(p, q)
    ensures StartsWith(s, q)
  {
    assert s[..|q|] == p[..|q|];
  }

  /** A string that starts with two prefixes that differ at position `j`
      cannot exist. */
  lemma {:induction false} NoCommonExtension(s: string, p: string, q: string, j: nat)
    requires j < |p| && j < |q| && p[j] != q[j]
    requires StartsWith(s, p)
    ensures !StartsWith(s, q)
  {
    assert s[j] == p[j];
  }

  /** The characters `String.prototype.trim` removes: the ECMAScript
      WhiteSpace set (TAB, VT, FF, ZWNBSP and every space separator) and the
      LineTerminator set (LF, CR, LS, PS). */
  predicate IsJsWhitespace(c: char) {
    var n := c as int;
    (0x09 <= n <= 0x0D) || n == 0x20 || n == 0xA0 || n == 0x1680
    || (0x2000 <= n <= 0x200A) || n == 0x2028 || n == 0x2029
    || n == 0x202F || n == 0x205F || n == 0x3000 || n == 0xFEFF
  }

  predicate AllWhitespace(s: string) {
    forall i | 0 <= i < |s| :: IsJsWhitespace(s[i])
  }

  function TrimStart(s: string): (r: string)
    ensures |r| <= |s| && r == s[|s| - |r|..]
    ensures r != [] ==> !IsJsWhitespace(r[0])
    ensures AllWhitespace(s[..|s| - |r|])
  {
    if s != [] && IsJsWhitespace(s[0]) then
      var r := TrimStart(s[1..]);
      assert s[..|s| - |r|] == [s[0]] + s[1..][..|s[1..]| - |r|];
      r
    else s
  }

  function TrimEnd(s: string): (r: string)
    ensures |r| <= |s| && r == s[..|r|]
    ensures r != [] ==> !IsJsWhitespace(r[|r| - 1])
    ensures AllWhitespace(s[|r|..])
    ensures s != [] && !IsJsWhitespace(s[0]) ==> r != []
  {
    if s != [] && IsJsWhitespace(s[|s| - 1]) then
      var r := TrimEnd(s[..|s| - 1]);
      assert s[|r|..] == s[..|s| - 1][|r|..] + [s[|s| - 1]];
      r
    else s
  }

  /** `s.trim()`: a stretch of `s` with no whitespace at either end. */
  function Trim(s: string): (r: string)
    ensures |r| <= |s|
    ensures r != [] ==> !IsJsWhitespace(r[0]) && !IsJsWhitespace(r[|r| - 1])
  {
    var t := TrimStart(s);
    var r := TrimEnd(t);
    assert r != [] ==> r[0] == t[0];
    r
  }

  /** `!s.trim()` holds exactly when every character of `s` is whitespace. */
  lemma TrimEmptyIffBlank(s: string)
    ensures Trim(s) == [] <==> AllWhitespace(s)
  {
    var t := TrimStart(s);
    if t == [] {
      assert s[..|s|] == s;
    } else {
      assert t[0] == s[|s| - |t|];
    }
  }

  /** `s.filter(x => field(x) === v)` */
  function FilterBy<T(!new)>(s: seq<T>, field: T -> string, v: string): (r: seq<T>)
    ensures |r| <= |s|
    ensures forall x :: multiset(r)[x] == if field(x) == v then multiset(s)[x] else 0
    ensures forall x :: x in r <==> x in s && field(x) == v
  {
    if s == [] then []
    else
      var rest := FilterBy(s[1..], field, v);
      assert s == [s[0]] + s[1..];
      (if field(s[0]) == v then [s[0]] else []) + rest
  }

  /** `s.filter(x => field(x) !== v)` */
  function RemoveBy<T(!new)>(s: seq<T>, field: T -> string, v: string): (r: seq<T>)
    ensures |r| <= |s|
    ensures forall x :: multiset(r)[x] == if field(x) == v then 0 else multiset(s)[x]
    ensures forall x :: x in r <==> x in s && field(x) != v
  {
    if s == [] then []
    else
      var rest := RemoveBy(s[1..], field, v);
      assert s == [s[0]] + s[1..];
      (if field(s[0]) == v then [] else [s[0]]) + rest
  }

  lemma AppendAssoc<T>(a: seq<T>, b: seq<T>, c: seq<T>)
    ensures a + (b + c) == (a + b) + c
  {
  }

  lemma FilterByUnfold<T(!new)>(s: seq<T>, field: T -> string, v: string)
    requires s != []
    ensures FilterBy(s, field, v) == (if field(s[0]) == v then [s[0]] else []) + FilterBy(s[1..], field, v)
  {
  }

  /** Filtering keeps order: it distributes over concatenation. */
  lemma {:induction false} FilterByAppend<T(!new)>(a: seq<T>, b: seq<T>, field: T -> string, v: string)
    ensures FilterBy(a + b, field, v) == FilterBy(a, field, v) + FilterBy(b, field, v)
  {
    if a == [] {
      assert a + b == b;
    } else {
      var head := if field(a[0]) == v then [a[0]] else [];
      assert (a + b)[0] == a[0] && (a + b)[1..] == a[1..] + b;
      FilterByUnfold(a + b, field, v);
      FilterByUnfold(a, field, v);
      FilterByAppend(a[1..], b, field, v);
      assert FilterBy(a + b, field, v) == head + (FilterBy(a[1..], field, v) + FilterBy(b, field, v));
      AppendAssoc(head, FilterBy(a[1..], field, v), FilterBy(b, field, v));
    }
  }

  lemma RemoveByUnfold<T(!new)>(s: seq<T>, field: T -> string, v: string)
    requires s != []
    ensures RemoveBy(s, field, v) == (if field(s[0]) == v then [] else [s[0]]) + RemoveBy(s[1..], field, v)
  {
  }

  /** Removing keeps the order of what stays: it distributes over
      concatenation. */
  lemma {:induction false} RemoveByAppend<T(!new)>(a: seq<T>, b: seq<T>, field: T -> string, v: string)
    ensures RemoveBy(a + b, field, v) == RemoveBy(a, field, v) + RemoveBy(b, field, v)
  {
    if a == [] {
      assert a + b == b;
    } else {
      var head := if field(a[0]) == v then [] else [a[0]];
      assert (a + b)[0] == a[0] && (a + b)[1..] == a[1..] + b;
      RemoveByUnfold(a + b, field, v);
      RemoveByUnfold(a, field, v);
      RemoveByAppend(a[1..], b, field, v);
      assert RemoveBy(a + b, field, v) == head + (RemoveBy(a[1..], field, v) + RemoveBy(b, field, v));
      AppendAssoc(head, RemoveBy(a[1..], field, v), RemoveBy(b, field, v));
    }
  }

  /** Removing a value no element carries leaves the list as it was. */
  lemma {:induction false} RemoveByAbsent<T(!new)>(s: seq<T>, field: T -> string, v: string)
    requires forall x | x in s :: field(x) != v
    ensures RemoveBy(s, field, v) == s
  {
    if s != [] {
      assert forall x | x in s[1..] :: x in s;
      RemoveByAbsent(s[1..], field, v);
      assert s == [s[0]] + s[1..];
    }
  }

  /** The position where `s.find(x => field(x) === v)` stops: the first
      match, or `|s|` when there is none. */
  function FirstIndex<T, K(==)>(s: seq<T>, field: T -> K, v: K): (r: nat)
    ensures r <= |s|
    ensures forall j | 0 <= j < r :: field(s[j]) != v
    ensures r < |s| ==> field(s[r]) == v
  {
    if s == [] then 0
    else if field(s[0]) == v then 0
    else 1 + FirstIndex(s[1..], field, v)
  }

  /** `s.find(x => field(x) === v)`: the first match, if any. */
  function FindBy<T, K(==)>(s: seq<T>, field: T -> K, v: K): (r: Option<T>)
    ensures r.None? <==> forall x | x in s :: field(x) != v
    ensures r.Some? ==> r.value in s && field(r.value) == v
    ensures r.Some? ==> exists i | 0 <= i < |s| :: s[i] == r.value && forall j | 0 <= j < i :: field(s[j]) != v
  {
    var i := FirstIndex(s, field, v);
    if i < |s| then Some(s[i]) else None
  }

  /** `s.map(x => field(x) === field(y) ? y : x)` */
  function ReplaceBy<T>(s: seq<T>, field: T -> string, y: T): (r: seq<T>)
    ensures |r| == |s|
    ensures forall i | 0 <= i < |s| :: r[i] == if field(s[i]) == field(y) then y else s[i]
  {
    seq(|s|, i requires 0 <= i < |s| => if field(s[i]) == field(y) then y else s[i])
  }

  /** Replacing by a key no element carries leaves the list as it was. */
  lemma ReplaceAbsent<T>(s: seq<T>, field: T -> string, y: T)
    requires forall x | x in s :: field(x) != field(y)
    ensures ReplaceBy(s, field, y) == s
  {
  }

  /** After a replacement every element carrying the key is `y`, and the
      elements that do not carry it are exactly those of `s` that did not. */
  lemma ReplaceContents<T>(s: seq<T>, field: T -> string, y: T)
    ensures forall x | x in ReplaceBy(s, field, y) :: x == y || (x in s && field(x) != field(y))
    ensures forall x | x in s && field(x) != field(y) :: x in ReplaceBy(s, field, y)
    ensures (exists x | x in s :: field(x) == field(y)) ==> y in ReplaceBy(s, field, y)
  {
    var r := ReplaceBy(s, field, y);
    forall x | x in r ensures x == y || (x in s && field(x) != field(y)) {
      var i :| 0 <= i < |r| && r[i] == x;
    }
    forall x | x in s && field(x) != field(y) ensures x in r {
      var i :| 0 <= i < |s| && s[i] == x;
      assert r[i] == x;
    }
    if exists x | x in s :: field(x) == field(y) {
      var x :| x in s && field(x) == field(y);
      var i :| 0 <= i < |s| && s[i] == x;
      assert r[i] == y;
    }
  }

  /** `s.filter(p).length` */
  function Count<T>(s: seq<T>, p: T -> bool): (n: nat)
    ensures n <= |s|
  {
    if s == [] then 0 else (if p(s[0]) then 1 else 0) + Count(s[1..], p)
  }

  /** Two tests that never hold together select at most all the elements. */
  lemma {:induction false} CountDisjoint<T>(s: seq<T>, p: T -> bool, q: T -> bool)
    requires forall x | x in s :: !(p(x) && q(x))
    ensures Count(s, p) + Count(s, q) <= |s|
  {
    if s != [] {
      assert forall x | x in s[1..] :: x in s;
      CountDisjoint(s[1..], p, q);
    }
  }
}

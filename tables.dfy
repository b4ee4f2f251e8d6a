/**
 * How the handlers read tables: a table is a sequence of rows in primary-key
 * order, `First` returns the first row a condition selects, `DISTINCT ... ORDER
 * BY` yields a strictly ascending list, and `LIMIT`/`OFFSET` cut a window.
 */
module Tables {
  import opened Wrappers

  /** GORM's `Where(cond).First(&row)`: the index of the first row satisfying `p`. */
  function Find<T>(rows: seq<T>, p: T -> bool): (r: Option<nat>)
    ensures r.Some? ==> r.value < |rows| && p(rows[r.value]) && forall j :: 0 <= j < r.value ==> !p(rows[j])
    ensures r.None? ==> forall j :: 0 <= j < |rows| ==> !p(rows[j])
  {
    if rows == [] then None
    else if p(rows[0]) then Some(0)
    else match Find(rows[1..], p)
      case None => None
      case Some(k) => Some(k + 1)
  }

  /** Code-point lexicographic order on strings, the `C` collation. */
  predicate LexLe(a: string, b: string) {
    a == [] || (b != [] && (a[0] < b[0] || (a[0] == b[0] && LexLe(a[1..], b[1..]))))
  }

  predicate LexLt(a: string, b: string) {
    LexLe(a, b) && a != b
  }

  lemma {:induction false} LexLeTotal(a: string, b: string)
    ensures LexLe(a, b) || LexLe(b, a)
  {
    if a != [] && b != [] && a[0] == b[0] {
      LexLeTotal(a[1..], b[1..]);
    }
  }

  lemma {:induction false} LexLeAntisymmetric(a: string, b: string)
    requires LexLe(a, b) && LexLe(b, a)
    ensures a == b
  {
    if a != [] {
      LexLeAntisymmetric(a[1..], b[1..]);
      assert a == [a[0]] + a[1..] && b == [b[0]] + b[1..];
    }
  }

  lemma {:induction false} LexLeTransitive(a: string, b: string, c: string)
    requires LexLe(a, b) && LexLe(b, c)
    ensures LexLe(a, c)
  {
    if a != [] && a[0] == b[0] && b[0] == c[0] {
      LexLeTransitive(a[1..], b[1..], c[1..]);
    }
  }

  lemma LexLtTransitive(a: string, b: string, c: string)
    requires LexLt(a, b) && LexLt(b, c)
    ensures LexLt(a, c)
  {
    LexLeTransitive(a, b, c);
    if a == c {
      LexLeAntisymmetric(a, b);
    }
  }

  predicate StrictlyAscending(s: seq<string>) {
    forall i, j :: 0 <= i < j < |s| ==> LexLt(s[i], s[j])
  }

  /** Adds `x` to a strictly ascending list, keeping it strictly ascending and without repeats. */
  function InsertDistinct(x: string, s: seq<string>): (r: seq<string>)
    requires StrictlyAscending(s)
    ensures StrictlyAscending(r)
    ensures forall y :: y in r <==> y == x || y in s
  {
    if s == [] then [x]
    else if x == s[0] then s
    else if LexLe(x, s[0]) then
      assert forall j :: 0 < j < |s| ==> LexLt(x, s[j]) by {
        forall j | 0 < j < |s| ensures LexLt(x, s[j]) { LexLtTransitive(x, s[0], s[j]); }
      }
      [x] + s
    else
      LexLeTotal(x, s[0]);
      var t := InsertDistinct(x, s[1..]);
      assert forall y :: y in t ==> LexLt(s[0], y);
      [s[0]] + t
  }

  /** `SELECT DISTINCT v ... ORDER BY v`: the values of `s`, each once, ascending. */
  function SortDistinct(s: seq<string>): (r: seq<string>)
    ensures StrictlyAscending(r)
    ensures forall y :: y in r <==> y in s
  {
    if s == [] then [] else InsertDistinct(s[|s| - 1], SortDistinct(s[..|s| - 1]))
  }

  lemma NonEmptyHasMember<T>(s: seq<T>)
    ensures s == [] || s[0] in s
  {}

  /** A strictly ascending list is determined by its elements, so the ordered listing is unique. */
  lemma {:induction false} AscendingUnique(a: seq<string>, b: seq<string>)
    requires StrictlyAscending(a) && StrictlyAscending(b)
    requires forall y :: y in a <==> y in b
    ensures a == b
  {
    if a != [] && b != [] {
      if a[0] != b[0] {
        assert a[0] in b;
        assert b[0] in a;
        var i :| 0 <= i < |a| && a[i] == b[0];
        var j :| 0 <= j < |b| && b[j] == a[0];
        assert LexLt(a[0], b[0]);
        assert LexLt(b[0], a[0]);
        LexLeAntisymmetric(a[0], b[0]);
      }
      forall y ensures y in a[1..] <==> y in b[1..] {
        if y in a[1..] {
          var k :| 1 <= k < |a| && a[k] == y;
          assert LexLt(a[0], a[k]);
          assert y in b && y != b[0];
          assert y == b[0] || y in b[1..];
        }
        if y in b[1..] {
          var k :| 1 <= k < |b| && b[k] == y;
          assert LexLt(b[0], b[k]);
          assert y in a && y != a[0];
          assert y == a[0] || y in a[1..];
        }
      }
      AscendingUnique(a[1..], b[1..]);
      assert a == [a[0]] + a[1..] && b == [b[0]] + b[1..];
    } else {
      NonEmptyHasMember(a);
      NonEmptyHasMember(b);
    }
  }

  /** The first row `OFFSET offset` keeps: GORM adds the clause only for a positive offset. */
  function WindowStart(n: nat, offset: int): (k: nat)
    ensures k <= n
  {
    if offset <= 0 then 0 else if offset < n then offset else n
  }

  /**
   * `LIMIT limit OFFSET offset`: GORM adds `LIMIT` for a limit of zero or more
   * (zero selects nothing) and leaves a negative limit out.
   */
  function Window<T>(s: seq<T>, offset: int, limit: int): (r: seq<T>)
    ensures |r| == if 0 <= limit < |s| - WindowStart(|s|, offset) then limit else |s| - WindowStart(|s|, offset)
    ensures forall i :: 0 <= i < |r| ==> r[i] == s[WindowStart(|s|, offset) + i]
  {
    var rest := s[WindowStart(|s|, offset)..];
    if 0 <= limit < |rest| then rest[..limit] else rest
  }

  /** Pages of one size tile the listing: page `p + 1` starts where page `p` ends. */
  lemma PagesAreConsecutive<T>(s: seq<T>, page: int, limit: nat)
    requires page >= 1 && limit > 0 && page * limit <= |s|
    ensures Window(s, (page - 1) * limit, limit) + Window(s, page * limit, limit)
            == s[(page - 1) * limit..if (page + 1) * limit <= |s| then (page + 1) * limit else |s|]
  {
    var a, b := (page - 1) * limit, page * limit;
    assert b == a + limit;
    assert (page + 1) * limit == b + limit;
    assert Window(s, a, limit) == s[a..b];
    if b + limit <= |s| {
      assert Window(s, b, limit) == s[b..b + limit];
    } else {
      assert Window(s, b, limit) == s[b..];
    }
  }
}

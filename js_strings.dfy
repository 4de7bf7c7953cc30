/**
 * The JavaScript string and array built-ins the handler relies on:
 * `Array.prototype.join`, `.filter(Boolean)` on strings and
 * `String.prototype.trim`, plus a splitting function used only to state
 * round-trip properties of joins.
 */
module JsStrings {

  /** `items.join(sep)`: the items with `sep` between neighbours. */
  function Join(items: seq<string>, sep: string): string
  {
    if items == [] then ""
    else if |items| == 1 then items[0]
    else items[0] + sep + Join(items[1..], sep)
  }

  /** `items.filter(Boolean)` on strings: drops the empty (falsy) items. */
  function NonEmpty(items: seq<string>): (r: seq<string>)
    ensures "" !in r
    ensures |r| <= |items|
    ensures forall x :: x in r ==> x in items
  {
    if items == [] then []
    else (if items[0] == "" then [] else [items[0]]) + NonEmpty(items[1..])
  }

  /**
   * The characters `String.prototype.trim` removes: the ECMAScript
   * WhiteSpace (including every space separator) and LineTerminator code points.
   */
  predicate IsJsSpace(c: char)
  {
    var n := c as int;
    n == 0x09 || n == 0x0A || n == 0x0B || n == 0x0C || n == 0x0D || n == 0x20
    || n == 0xA0 || n == 0x1680 || (0x2000 <= n <= 0x200A)
    || n == 0x2028 || n == 0x2029 || n == 0x202F || n == 0x205F
    || n == 0x3000 || n == 0xFEFF
  }

  /** `s` without its leading white space. */
  function TrimStart(s: string): string
  {
    if s != [] && IsJsSpace(s[0]) then TrimStart(s[1..]) else s
  }

  /** `s` without its trailing white space. */
  function TrimEnd(s: string): string
  {
    if s != [] && IsJsSpace(s[|s| - 1]) then TrimEnd(s[..|s| - 1]) else s
  }

  /** `TrimStart` removes a white-space prefix, and what it keeps does not start with white space. */
  lemma {:induction false} TrimStartShape(s: string)
    ensures var r := TrimStart(s);
            && |r| <= |s| && r == s[|s| - |r|..]
            && (forall k :: 0 <= k < |s| - |r| ==> IsJsSpace(s[k]))
            && (r != [] ==> !IsJsSpace(r[0]))
  {
    if s != [] && IsJsSpace(s[0]) {
      TrimStartShape(s[1..]);
      var r := TrimStart(s[1..]);
      assert s[1..][|s| - 1 - |r|..] == s[|s| - |r|..];
      forall k | 1 <= k < |s| - |r| ensures IsJsSpace(s[k]) {
        assert s[k] == s[1..][k - 1];
      }
    }
  }

  /** `TrimEnd` removes a white-space suffix, and what it keeps does not end with white space. */
  lemma {:induction false} TrimEndShape(s: string)
    ensures var r := TrimEnd(s);
            && |r| <= |s| && r == s[..|r|]
            && (forall k :: |r| <= k < |s| ==> IsJsSpace(s[k]))
            && (r != [] ==> !IsJsSpace(r[|r| - 1]))
  {
    if s != [] && IsJsSpace(s[|s| - 1]) {
      var t := s[..|s| - 1];
      TrimEndShape(t);
      var r := TrimEnd(t);
      assert t[..|r|] == s[..|r|];
      forall k | |r| <= k < |s| - 1 ensures IsJsSpace(s[k]) {
        assert s[k] == t[k];
      }
    }
  }

  /** `s.trim()`. */
  function Trim(s: string): string
  {
    TrimEnd(TrimStart(s))
  }

  /** `sep` occurs in `s` at index `k`. */
  predicate OccursAt(s: string, sep: string, k: nat)
  {
    k + |sep| <= |s| && s[k..k + |sep|] == sep
  }

  /** A one-character separator occurs exactly where that character stands. */
  lemma OccursAtChar(s: string, c: char, k: nat)
    ensures OccursAt(s, [c], k) <==> k < |s| && s[k] == c
  {
    if k < |s| {
      assert s[k..k + 1] == [s[k]];
    }
  }

  /**
   * Index of the first occurrence of `sep` in `s`, or `|s|` when there is
   * none (in which case no occurrence fits, for a non-empty `sep`).
   */
  function Find(s: string, sep: string): (i: nat)
    ensures i <= |s|
    ensures i + |sep| <= |s| ==> OccursAt(s, sep, i)
    ensures i + |sep| > |s| ==> i == |s|
    ensures forall k: nat :: k < i ==> !OccursAt(s, sep, k)
  {
    if |s| < |sep| then |s|
    else if s[..|sep|] == sep then 0
    else
      var j := Find(s[1..], sep);
      forall k: nat | 1 <= k ensures OccursAt(s, sep, k) <==> OccursAt(s[1..], sep, k - 1) {
        OccursShift(s, sep, k - 1);
      }
      assert OccursAt(s, sep, 0) <==> s[..|sep|] == sep by {
        assert s[0..|sep|] == s[..|sep|];
      }
      1 + j
  }

  /** An occurrence one place further in `s` is an occurrence in `s` without its first character. */
  lemma OccursShift(s: string, sep: string, k: nat)
    requires s != []
    ensures OccursAt(s, sep, k + 1) <==> OccursAt(s[1..], sep, k)
  {
    if k + 1 + |sep| <= |s| {
      var here, shifted := s[k + 1..k + 1 + |sep|], s[1..][k..k + |sep|];
      assert here == shifted by {
        forall m | 0 <= m < |sep| ensures here[m] == shifted[m] {}
      }
    }
  }

  /** `s.split(sep)` for a non-empty separator. */
  function SplitOn(s: string, sep: string): (parts: seq<string>)
    requires |sep| > 0
    ensures |parts| >= 1
    decreases |s|
  {
    var i := Find(s, sep);
    if i + |sep| <= |s| then [s[..i]] + SplitOn(s[i + |sep|..], sep) else [s]
  }

  // ----- trim -----

  /** `trim` removes exactly a white-space prefix and a white-space suffix, and no more. */
  lemma TrimShape(s: string)
    ensures var r, i := Trim(s), |s| - |TrimStart(s)|;
            && 0 <= i && i + |r| <= |s|
            && r == s[i..i + |r|]
            && (forall k :: 0 <= k < i ==> IsJsSpace(s[k]))
            && (forall k :: i + |r| <= k < |s| ==> IsJsSpace(s[k]))
            && (r != "" ==> !IsJsSpace(r[0]) && !IsJsSpace(r[|r| - 1]))
  {
    var t := TrimStart(s);
    TrimStartShape(s);
    TrimEndShape(t);
    var r := TrimEnd(t);
    var i := |s| - |t|;
    assert r == s[i..i + |r|] by {
      assert t == s[i..];
      assert r == t[..|r|];
    }
    forall k | i + |r| <= k < |s| ensures IsJsSpace(s[k]) {
      assert s[k] == t[k - i];
    }
    if r != "" {
      assert r[0] == t[0];
    }
  }

  /** A string trims to nothing exactly when it is all white space. */
  lemma TrimEmptyIff(s: string)
    ensures Trim(s) == "" <==> forall k :: 0 <= k < |s| ==> IsJsSpace(s[k])
  {
    TrimShape(s);
  }

  /** Trimming twice is trimming once. */
  lemma TrimIdempotent(s: string)
    ensures Trim(Trim(s)) == Trim(s)
  {
    var r := Trim(s);
    TrimShape(s);
    if r != "" {
      assert TrimStart(r) == r;
      assert TrimEnd(r) == r;
    }
  }

  // ----- join and filter(Boolean) -----

  /** A join is empty only when every item is. */
  lemma {:induction false} JoinEmpty(items: seq<string>, sep: string)
    requires Join(items, sep) == ""
    ensures forall i :: 0 <= i < |items| ==> items[i] == ""
  {
    if |items| > 1 {
      JoinEmpty(items[1..], sep);
      forall i | 1 <= i < |items| ensures items[i] == "" {
        assert items[i] == items[1..][i - 1];
      }
    }
  }

  /** Joining at least one non-empty item gives a non-empty string. */
  lemma JoinNonEmpty(items: seq<string>, sep: string, i: nat)
    requires i < |items| && items[i] != ""
    ensures Join(items, sep) != ""
  {
    if Join(items, sep) == "" {
      JoinEmpty(items, sep);
    }
  }

  /** A character in neither the items nor the separator is not in their join. */
  lemma {:induction false} JoinAvoids(items: seq<string>, sep: string, c: char)
    requires c !in sep
    requires forall i :: 0 <= i < |items| ==> c !in items[i]
    ensures c !in Join(items, sep)
  {
    if |items| > 1 {
      JoinAvoids(items[1..], sep, c);
    }
  }

  /** `filter` keeps order: filtering a concatenation filters each part. */
  lemma {:induction false} NonEmptyAppend(a: seq<string>, b: seq<string>)
    ensures NonEmpty(a + b) == NonEmpty(a) + NonEmpty(b)
  {
    if a != [] {
      assert (a + b)[1..] == a[1..] + b;
      NonEmptyAppend(a[1..], b);
    } else {
      assert a + b == b;
    }
  }

  /** `filter(Boolean)` keeps every non-empty item, as often as it occurs. */
  lemma {:induction false} NonEmptyKeeps(items: seq<string>)
    ensures forall x :: x != "" ==> multiset(NonEmpty(items))[x] == multiset(items)[x]
  {
    if items != [] {
      NonEmptyKeeps(items[1..]);
      assert items == [items[0]] + items[1..];
    }
  }

  /** Filtering leaves nothing exactly when every item is empty. */
  lemma {:induction false} NonEmptyNilIff(items: seq<string>)
    ensures NonEmpty(items) == [] <==> forall i :: 0 <= i < |items| ==> items[i] == ""
  {
    if items != [] {
      NonEmptyNilIff(items[1..]);
      assert forall i :: 1 <= i < |items| ==> items[i] == items[1..][i - 1];
    }
  }

  /** A list with no empty item is left as it is. */
  lemma {:induction false} NonEmptyFixed(items: seq<string>)
    requires "" !in items
    ensures NonEmpty(items) == items
  {
    if items != [] {
      assert items[0] != "";
      NonEmptyFixed(items[1..]);
      assert items == [items[0]] + items[1..];
    }
  }

  /** Filtering is idempotent. */
  lemma NonEmptyIdempotent(items: seq<string>)
    ensures NonEmpty(NonEmpty(items)) == NonEmpty(items)
  {
    NonEmptyFixed(NonEmpty(items));
  }

  // ----- split undoes join -----

  lemma {:induction false} FindPlainThenSep(x: string, sep: string, rest: string)
    requires |sep| > 0 && sep[0] !in x
    ensures Find(x + sep + rest, sep) == |x|
  {
    var s := x + sep + rest;
    if x == [] {
      assert s[..|sep|] == sep;
    } else {
      assert s[0] == x[0];
      assert s[..|sep|] != sep by { assert s[..|sep|][0] == x[0]; }
      assert s[1..] == x[1..] + sep + rest;
      FindPlainThenSep(x[1..], sep, rest);
    }
  }

  lemma {:induction false} FindPlain(x: string, sep: string)
    requires |sep| > 0 && sep[0] !in x
    ensures Find(x, sep) == |x|
  {
    if |x| >= |sep| {
      assert x[..|sep|] != sep by { assert x[..|sep|][0] == x[0]; }
      assert x[1..] == x[1..];
      FindPlain(x[1..], sep);
    }
  }

  lemma SplitStep(x: string, sep: string, rest: string)
    requires |sep| > 0 && sep[0] !in x
    ensures SplitOn(x + sep + rest, sep) == [x] + SplitOn(rest, sep)
  {
    var s := x + sep + rest;
    FindPlainThenSep(x, sep, rest);
    assert s[..|x|] == x;
    assert s[|x| + |sep|..] == rest;
  }

  /**
   * Splitting a join on its separator gives the items back, provided no
   * item contains the separator's first character.
   */
  lemma {:induction false} SplitJoin(items: seq<string>, sep: string)
    requires |sep| > 0 && |items| > 0
    requires forall i :: 0 <= i < |items| ==> sep[0] !in items[i]
    ensures SplitOn(Join(items, sep), sep) == items
  {
    if |items| == 1 {
      FindPlain(items[0], sep);
    } else {
      SplitStep(items[0], sep, Join(items[1..], sep));
      SplitJoin(items[1..], sep);
      assert items == [items[0]] + items[1..];
    }
  }
}

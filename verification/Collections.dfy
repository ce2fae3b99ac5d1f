/** Notions about optional values, sequences and sets that every module shares. */
module Collections {

  datatype Option<+T> = None | Some(value: T)

  ghost predicate NoRepeats<T>(s: seq<T>) {
    forall i, j :: 0 <= i < j < |s| ==> s[i] != s[j]
  }

  ghost predicate Increasing(s: seq<nat>) {
    forall i, j :: 0 <= i < j < |s| ==> s[i] < s[j]
  }

  /** The first occurrence of `x`. */
  method IndexOf<T(==)>(s: seq<T>, x: T) returns (index: nat)
    requires x in s
    ensures index < |s| && s[index] == x && x !in s[..index]
  {
    index := 0;
    while s[index] != x
      invariant index < |s| && x !in s[..index]
      decreases |s| - index
    {
      assert s == s[..index] + [s[index]] + s[index + 1..];
      index := index + 1;
    }
  }

  /** A repetition-free list over a set is no longer than the set. */
  lemma {:induction false} RepetitionFreeBound<T>(s: seq<T>, elements: set<T>)
    requires NoRepeats(s) && forall x :: x in s ==> x in elements
    ensures |s| <= |elements|
    decreases |s|
  {
    if s != [] {
      var n := |s| - 1;
      assert forall x :: x in s[..n] ==> x in s && x != s[n];
      RepetitionFreeBound(s[..n], elements - {s[n]});
      assert s[n] in s;
    }
  }

  lemma NoRepeatsMore<T>(s: seq<T>, x: T)
    requires NoRepeats(s) && x !in s
    ensures NoRepeats(s + [x])
  {
  }

  lemma NoRepeatsLast<T>(s: seq<T>)
    requires NoRepeats(s) && s != []
    ensures NoRepeats(s[..|s| - 1]) && s[|s| - 1] !in s[..|s| - 1] && s == s[..|s| - 1] + [s[|s| - 1]]
  {
  }

  lemma CountWithout<T>(s: set<T>, x: T)
    ensures |s - {x}| == |s| - if x in s then 1 else 0
  {
    if x !in s { assert s - {x} == s; }
  }

  lemma Scaled(n: nat, a: nat, b: nat)
    requires a <= b
    ensures a * n <= b * n && n * a <= n * b
  {
  }

  lemma {:induction false} SubsetSize<T>(a: set<T>, b: set<T>)
    requires a <= b
    ensures |a| <= |b|
    decreases |a|
  {
    if a != {} {
      var x :| x in a;
      SubsetSize(a - {x}, b - {x});
    }
  }

  // ---------- sums over sets ----------

  ghost function Sum<T(!new)>(s: set<T>, f: T -> nat): nat {
    if s == {} then 0
    else
      var x :| x in s;
      f(x) + Sum(s - {x}, f)
  }

  lemma {:induction false} SumAdd<T(!new)>(s: set<T>, f: T -> nat, x: T)
    requires x !in s
    ensures Sum(s + {x}, f) == Sum(s, f) + f(x)
    decreases |s|
  {
    hide Sum;
    var t := s + {x};
    var y := SumPick(t, f);
    if y == x {
      assert t - {x} == s;
    } else {
      var rest := s - {y};
      assert t - {y} == rest + {x} && s == rest + {y};
      SumAdd(rest, f, x);
      SumAdd(rest, f, y);
    }
  }

  lemma SumPick<T(!new)>(s: set<T>, f: T -> nat) returns (y: T)
    requires s != {}
    ensures y in s && Sum(s, f) == f(y) + Sum(s - {y}, f)
  {
    y :| y in s && Sum(s, f) == f(y) + Sum(s - {y}, f);
  }

  lemma {:induction false} SumGrows<T(!new)>(s: set<T>, t: set<T>, f: T -> nat)
    requires s <= t
    ensures Sum(s, f) <= Sum(t, f)
    decreases |t - s|
  {
    if x :| x in t - s {
      SumAdd(s, f, x);
      assert t - (s + {x}) == (t - s) - {x};
      SumGrows(s + {x}, t, f);
    } else {
      assert s == t;
    }
  }

  lemma {:induction false} SumSame<T(!new)>(s: set<T>, f: T -> nat, g: T -> nat)
    requires forall x :: x in s ==> f(x) == g(x)
    ensures Sum(s, f) == Sum(s, g)
    decreases |s|
  {
    if s != {} {
      var x :| x in s;
      assert s == (s - {x}) + {x};
      SumSame(s - {x}, f, g);
      SumAdd(s - {x}, f, x);
      SumAdd(s - {x}, g, x);
    }
  }

  lemma SumNothing<T(!new)>(f: T -> nat)
    ensures Sum({}, f) == 0
  {
  }

  // ---------- first occurrences ----------

  /** The list with every repetition left out. */
  function Firsts<T(==)>(s: seq<T>): seq<T> {
    if s == [] then []
    else if s[|s| - 1] in s[..|s| - 1] then Firsts(s[..|s| - 1])
    else Firsts(s[..|s| - 1]) + [s[|s| - 1]]
  }

  /** The list without these elements. */
  function Without<T(==)>(s: seq<T>, gone: set<T>): seq<T> {
    if s == [] then []
    else if s[|s| - 1] in gone then Without(s[..|s| - 1], gone)
    else Without(s[..|s| - 1], gone) + [s[|s| - 1]]
  }

  function Elements<T>(s: seq<T>): set<T> {
    set x | x in s
  }

  lemma {:induction false} FirstsElements<T>(s: seq<T>, x: T)
    ensures x in Firsts(s) <==> x in s
    decreases |s|
  {
    if s != [] {
      assert s == s[..|s| - 1] + [s[|s| - 1]];
      FirstsElements(s[..|s| - 1], x);
    }
  }

  lemma FirstsLast<T>(s: seq<T>, x: T)
    ensures Firsts(s + [x]) == Firsts(s) + if x in s then [] else [x]
  {
    assert (s + [x])[..|s|] == s;
  }

  lemma WithoutLast<T>(s: seq<T>, gone: set<T>, x: T)
    ensures Without(s + [x], gone) == Without(s, gone) + if x in gone then [] else [x]
  {
    assert (s + [x])[..|s|] == s;
  }

  lemma {:induction false} WithoutElements<T>(s: seq<T>, gone: set<T>, x: T)
    ensures x in Without(s, gone) <==> x in s && x !in gone
    decreases |s|
  {
    if s != [] {
      assert s == s[..|s| - 1] + [s[|s| - 1]];
      WithoutElements(s[..|s| - 1], gone, x);
    }
  }

  lemma {:induction false} WithoutAppend<T>(a: seq<T>, b: seq<T>, gone: set<T>)
    ensures Without(a + b, gone) == Without(a, gone) + Without(b, gone)
    decreases |b|
  {
    hide Without;
    if b == [] {
      assert a + b == a;
      WithoutNothing<T>(gone);
    } else {
      var n := |b| - 1;
      assert b == b[..n] + [b[n]] && a + b == (a + b[..n]) + [b[n]];
      WithoutAppend(a, b[..n], gone);
      WithoutLast(a + b[..n], gone, b[n]);
      WithoutLast(b[..n], gone, b[n]);
    }
  }

  lemma WithoutNothing<T>(gone: set<T>)
    ensures Without<T>([], gone) == [] && Firsts<T>([]) == []
  {
  }

  lemma {:induction false} WithoutTwice<T>(s: seq<T>, a: set<T>, b: set<T>)
    ensures Without(Without(s, a), b) == Without(s, a + b)
    decreases |s|
  {
    hide Without;
    if s == [] {
      WithoutNothing<T>(a);
      WithoutNothing<T>(b);
      WithoutNothing<T>(a + b);
    } else {
      var n := |s| - 1;
      assert s == s[..n] + [s[n]];
      WithoutTwice(s[..n], a, b);
      WithoutLast(s[..n], a, s[n]);
      WithoutLast(s[..n], a + b, s[n]);
      if s[n] in a {
        assert Without(s, a) == Without(s[..n], a);
      } else {
        WithoutLast(Without(s[..n], a), b, s[n]);
      }
    }
  }

  /** What a list adds to another is what the other does not have. */
  lemma {:induction false} FirstsAppend<T>(a: seq<T>, b: seq<T>)
    ensures Firsts(a + b) == Firsts(a) + Firsts(Without(b, Elements(a)))
    decreases |b|
  {
    hide Firsts, Without;
    if b == [] {
      assert a + b == a;
      WithoutNothing<T>(Elements(a));
    } else {
      var n := |b| - 1;
      var front, kept := b[..n], Without(b[..n], Elements(a));
      assert b == front + [b[n]] && a + b == (a + front) + [b[n]];
      FirstsAppend(a, front);
      FirstsLast(a + front, b[n]);
      WithoutLast(front, Elements(a), b[n]);
      WithoutElements(front, Elements(a), b[n]);
      if b[n] in a {
        assert Without(b, Elements(a)) == kept;
      } else {
        FirstsLast(kept, b[n]);
      }
    }
  }
}

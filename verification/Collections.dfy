/** Sequence facts shared by the linked lists and by the server model. */
module Collections {

  datatype Option<+T> = None | Some(value: T)

  predicate NoDup<T(==)>(s: seq<T>) {
    forall i, j :: 0 <= i < j < |s| ==> s[i] != s[j]
  }

  /** The sequence left when the first occurrence of `x` is unlinked. */
  function Without<T(==)>(s: seq<T>, x: T): (r: seq<T>)
    ensures x !in s ==> r == s
    ensures |r| == if x in s then |s| - 1 else |s|
    ensures forall y :: y in r ==> y in s
    ensures forall y :: y in s && y != x ==> y in r
    ensures NoDup(s) ==> NoDup(r) && x !in r
  {
    if s == [] then []
    else if s[0] == x then s[1..]
    else
      var rest := Without(s[1..], x);
      assert NoDup(s) ==> NoDup(s[1..]) && s[0] !in s[1..];
      assert s[0] !in s[1..] ==> s[0] !in rest;
      [s[0]] + rest
  }

  /** `Without` drops exactly the index at which `x` first stands. */
  lemma {:induction false} WithoutAt<T>(s: seq<T>, x: T, i: nat)
    requires i < |s| && s[i] == x && x !in s[..i]
    ensures Without(s, x) == s[..i] + s[i + 1..]
  {
    if i == 0 {
    } else {
      assert s[0] == s[..i][0];
      assert s[1..][..i - 1] == s[..i][1..];
      WithoutAt(s[1..], x, i - 1);
      assert s[1..][i..] == s[i + 1..];
      assert [s[0]] + s[1..][..i - 1] == s[..i];
    }
  }

  /** The elements outside `gone`, in their order. */
  function Minus<T(==)>(s: seq<T>, gone: set<T>): (r: seq<T>)
    ensures forall y :: y in r ==> y in s && y !in gone
    ensures forall y :: y in s && y !in gone ==> y in r
  {
    if s == [] then []
    else (if s[0] in gone then [] else [s[0]]) + Minus(s[1..], gone)
  }

  lemma {:induction false} MinusNone<T>(s: seq<T>, gone: set<T>)
    requires forall y :: y in s ==> y !in gone
    ensures Minus(s, gone) == s
  {
    if s == [] {
    } else {
      assert s[0] in s;
      MinusNone(s[1..], gone);
    }
  }

  lemma {:induction false} MinusWithout<T>(s: seq<T>, x: T, gone: set<T>)
    requires NoDup(s)
    ensures Minus(Without(s, x), gone) == Minus(s, gone + {x})
  {
    if s == [] {
    } else {
      assert NoDup(s[1..]);
      if s[0] == x {
        MinusSame(s[1..], gone, gone + {x});
      } else {
        MinusWithout(s[1..], x, gone);
        assert Without(s, x)[1..] == Without(s[1..], x);
      }
    }
  }

  lemma {:induction false} MinusSame<T>(s: seq<T>, g: set<T>, h: set<T>)
    requires forall y :: y in s ==> (y in g <==> y in h)
    ensures Minus(s, g) == Minus(s, h)
  {
    if s == [] {
    } else {
      assert s[0] in s;
      MinusSame(s[1..], g, h);
    }
  }
}

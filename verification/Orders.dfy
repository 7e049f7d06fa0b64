/** Lexicographic orders, as Python compares strings and tuples: the first
    difference decides, and a proper prefix is the lesser of the two. */
module Orders {

  ghost predicate StrictTotalOrder<T(!new)>(less: (T, T) -> bool) {
    && (forall a :: !less(a, a))
    && (forall a, b, c :: less(a, b) && less(b, c) ==> less(a, c))
    && (forall a, b :: less(a, b) || a == b || less(b, a))
  }

  predicate LexLess<T(==)>(less: (T, T) -> bool, a: seq<T>, b: seq<T>) {
    if b == [] then false
    else if a == [] then true
    else if a[0] == b[0] then LexLess(less, a[1..], b[1..])
    else less(a[0], b[0])
  }

  lemma {:induction false} LexIrreflexive<T(!new)>(less: (T, T) -> bool, a: seq<T>)
    ensures !LexLess(less, a, a)
  {
    if a != [] {
      LexIrreflexive(less, a[1..]);
    }
  }

  lemma {:induction false} LexTransitive<T(!new)>(less: (T, T) -> bool, a: seq<T>, b: seq<T>, c: seq<T>)
    requires StrictTotalOrder(less)
    requires LexLess(less, a, b) && LexLess(less, b, c)
    ensures LexLess(less, a, c)
  {
    if a != [] && a[0] == b[0] == c[0] {
      LexTransitive(less, a[1..], b[1..], c[1..]);
    }
  }

  lemma {:induction false} LexConnected<T(!new)>(less: (T, T) -> bool, a: seq<T>, b: seq<T>)
    requires StrictTotalOrder(less)
    ensures LexLess(less, a, b) || a == b || LexLess(less, b, a)
  {
    if a != [] && b != [] && a[0] == b[0] {
      LexConnected(less, a[1..], b[1..]);
      assert a == [a[0]] + a[1..] && b == [b[0]] + b[1..];
    }
  }

  lemma PrefixTail<T>(a: seq<T>, b: seq<T>)
    requires a != [] && b != [] && a[0] == b[0]
    ensures a <= b <==> a[1..] <= b[1..]
  {
    assert a == [a[0]] + a[1..] && b == [b[0]] + b[1..];
  }

  /** Extending the lesser sequence keeps it lesser, unless it is a prefix of the other. */
  lemma {:induction false} LexExtend<T(!new)>(less: (T, T) -> bool, a: seq<T>, b: seq<T>, x: seq<T>, y: seq<T>)
    requires LexLess(less, a, b) && !(a <= b)
    ensures LexLess(less, a + x, b + y)
  {
    assert a != [] && b != [];
    assert (a + x)[1..] == a[1..] + x && (b + y)[1..] == b[1..] + y;
    if a[0] == b[0] {
      PrefixTail(a, b);
      LexExtend(less, a[1..], b[1..], x, y);
    }
  }

  /** A common prefix does not matter. */
  lemma {:induction false} LexCommonPrefix<T(!new)>(less: (T, T) -> bool, p: seq<T>, a: seq<T>, b: seq<T>)
    ensures LexLess(less, p + a, p + b) == LexLess(less, a, b)
  {
    if p == [] {
      assert p + a == a && p + b == b;
    } else {
      assert (p + a)[1..] == p[1..] + a && (p + b)[1..] == p[1..] + b;
      LexCommonPrefix(less, p[1..], a, b);
    }
  }

  lemma {:induction false} LexPrefix<T(!new)>(less: (T, T) -> bool, p: seq<T>, a: seq<T>)
    requires a != []
    ensures LexLess(less, p, p + a)
  {
    LexCommonPrefix(less, p, [], a);
    assert p + [] == p;
  }

  /** Strings, tuples of strings, and tuples of such tuples. */
  predicate CharLess(a: char, b: char) { a < b }

  predicate StringLess(a: string, b: string) { LexLess(CharLess, a, b) }

  predicate TupleLess(a: seq<string>, b: seq<string>) { LexLess(StringLess, a, b) }

  predicate KeyLess(a: seq<seq<string>>, b: seq<seq<string>>) { LexLess(TupleLess, a, b) }

  lemma StringLessIsTotal()
    ensures StrictTotalOrder(StringLess)
  {
    assert StrictTotalOrder(CharLess);
    forall a: string ensures !StringLess(a, a) { LexIrreflexive(CharLess, a); }
    forall a: string, b: string, c: string | StringLess(a, b) && StringLess(b, c) ensures StringLess(a, c) {
      LexTransitive(CharLess, a, b, c);
    }
    forall a: string, b: string ensures StringLess(a, b) || a == b || StringLess(b, a) {
      LexConnected(CharLess, a, b);
    }
  }

  lemma TupleLessIsTotal()
    ensures StrictTotalOrder(TupleLess)
  {
    StringLessIsTotal();
    forall a: seq<string> ensures !TupleLess(a, a) { LexIrreflexive(StringLess, a); }
    forall a: seq<string>, b: seq<string>, c: seq<string> | TupleLess(a, b) && TupleLess(b, c) ensures TupleLess(a, c) {
      LexTransitive(StringLess, a, b, c);
    }
    forall a: seq<string>, b: seq<string> ensures TupleLess(a, b) || a == b || TupleLess(b, a) {
      LexConnected(StringLess, a, b);
    }
  }

  lemma KeyLessIsTotal()
    ensures StrictTotalOrder(KeyLess)
  {
    TupleLessIsTotal();
    forall a: seq<seq<string>> ensures !KeyLess(a, a) { LexIrreflexive(TupleLess, a); }
    forall a: seq<seq<string>>, b: seq<seq<string>>, c: seq<seq<string>> | KeyLess(a, b) && KeyLess(b, c)
      ensures KeyLess(a, c)
    {
      LexTransitive(TupleLess, a, b, c);
    }
    forall a: seq<seq<string>>, b: seq<seq<string>> ensures KeyLess(a, b) || a == b || KeyLess(b, a) {
      LexConnected(TupleLess, a, b);
    }
  }
}

/** Sizes of finite sets. */
module Sets {

  lemma {:induction false} SubsetSize<T>(a: set<T>, b: set<T>)
    requires a <= b
    ensures |a| <= |b|
  {
    if a != {} {
      var x :| x in a;
      SubsetSize(a - {x}, b - {x});
    }
  }

  lemma UnionSize<T>(a: set<T>, b: set<T>)
    ensures |a + b| <= |a| + |b|
  {
    assert a + b == a + (b - a);
    SubsetSize(b - a, b);
  }

  lemma TimesSuccessor(rate: nat, width: nat)
    ensures rate * (width + 1) == rate * width + rate
  {
  }

  lemma Pick<T>(s: set<T>) returns (x: T)
    requires s != {}
    ensures x in s
  {
    x :| x in s;
  }

  function Image<T(!new), U(!new)>(s: set<T>, f: T -> U): set<U> {
    set x | x in s :: f(x)
  }

  lemma ImageTake<T(!new), U(!new)>(s: set<T>, f: T -> U, x: T)
    requires x in s
    ensures Image(s, f) == Image(s - {x}, f) + {f(x)}
  {
    forall y | y in Image(s, f) ensures y in Image(s - {x}, f) + {f(x)} {
      var z :| z in s && f(z) == y;
      assert z != x ==> z in s - {x};
    }
  }

  lemma {:induction false} InjectiveImageSize<T(!new), U(!new)>(s: set<T>, f: T -> U)
    requires forall x, y | x in s && y in s && f(x) == f(y) :: x == y
    ensures |Image(s, f)| == |s|
  {
    if s != {} {
      var x := Pick(s);
      InjectiveImageSize(s - {x}, f);
      ImageTake(s, f, x);
      assert f(x) !in Image(s - {x}, f);
    }
  }
}

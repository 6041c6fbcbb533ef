/** Small definitions shared by every component of the model. */
module Common {

  datatype Option<+T> = None | Some(value: T)

  datatype Result<+T, +E> = Ok(value: T) | Err(error: E)

  /** The smaller of two integers. */
  function Min(a: int, b: int): int {
    if a < b then a else b
  }

  lemma SubsetSize<T>(small: set<T>, large: set<T>)
    requires small <= large
    ensures |small| <= |large|
  {
    if small != {} {
      var x :| x in small;
      SubsetSize(small - {x}, large - {x});
    }
  }

  /** A set of integers inside 1..n has at most n members. */
  lemma {:induction false} RangeSize(s: set<int>, n: nat)
    requires forall x :: x in s ==> 1 <= x <= n
    ensures |s| <= n
  {
    if n == 0 {
      assert forall x :: x !in s;
    } else {
      RangeSize(s - {n}, n - 1);
      if n in s {
        assert |s| == |s - {n}| + 1;
      } else {
        assert s - {n} == s;
      }
    }
  }

  /** An injective labelling of a set by 1..n bounds the size of the set. */
  lemma {:induction false} LabelledSize<T>(s: set<T>, tag: map<T, int>, n: nat)
    requires s <= tag.Keys
    requires forall x :: x in s ==> 1 <= tag[x] <= n
    requires forall x, y :: x in s && y in s && x != y ==> tag[x] != tag[y]
    ensures |s| <= n
  {
    var image := set x | x in s :: tag[x];
    ImageSize(s, tag);
    RangeSize(image, n);
  }

  lemma {:induction false} ImageSize<T>(s: set<T>, tag: map<T, int>)
    requires s <= tag.Keys
    requires forall x, y :: x in s && y in s && x != y ==> tag[x] != tag[y]
    ensures |set x | x in s :: tag[x]| == |s|
  {
    var image := set x | x in s :: tag[x];
    if s == {} {
      assert image == {};
    } else {
      var x :| x in s;
      var rest := s - {x};
      ImageSize(rest, tag);
      assert image == (set y | y in rest :: tag[y]) + {tag[x]};
    }
  }
}

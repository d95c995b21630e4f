/** Filtering and mapping sequences, and how the two interact. */
module Lists {
  function Filter<T>(p: T -> bool, s: seq<T>): seq<T> {
    if |s| == 0 then []
    else if p(s[0]) then [s[0]] + Filter(p, s[1..])
    else Filter(p, s[1..])
  }

  function Map<T, U>(f: T -> U, s: seq<T>): (r: seq<U>)
    ensures |r| == |s| && forall i :: 0 <= i < |s| ==> r[i] == f(s[i])
  {
    seq(|s|, i requires 0 <= i < |s| => f(s[i]))
  }

  lemma FilterCons<T>(p: T -> bool, x: T, s: seq<T>)
    ensures Filter(p, [x] + s) == if p(x) then [x] + Filter(p, s) else Filter(p, s)
  {
    assert ([x] + s)[1..] == s;
  }

  lemma MapCons<T, U>(f: T -> U, s: seq<T>)
    requires |s| > 0
    ensures Map(f, s) == [f(s[0])] + Map(f, s[1..])
  {
  }

  lemma MapSnoc<T, U>(f: T -> U, s: seq<T>, i: nat)
    requires i < |s|
    ensures Map(f, s[..i + 1]) == Map(f, s[..i]) + [f(s[i])]
  {
  }

  lemma {:induction false} FilterConcat<T>(p: T -> bool, a: seq<T>, b: seq<T>)
    ensures Filter(p, a + b) == Filter(p, a) + Filter(p, b)
  {
    if |a| == 0 {
      assert a + b == b;
    } else {
      FilterConcat(p, a[1..], b);
      assert a + b == [a[0]] + (a[1..] + b);
      FilterCons(p, a[0], a[1..] + b);
    }
  }

  lemma {:induction false} FilterMembers<T(!new)>(p: T -> bool, s: seq<T>)
    ensures forall x :: x in Filter(p, s) <==> x in s && p(x)
  {
    if |s| > 0 {
      FilterMembers(p, s[1..]);
      assert s == [s[0]] + s[1..];
    }
  }

  lemma {:induction false} FilterNone<T>(p: T -> bool, s: seq<T>)
    requires forall x :: x in s ==> !p(x)
    ensures Filter(p, s) == []
  {
    if |s| > 0 { FilterNone(p, s[1..]); }
  }

  lemma {:induction false} FilterAll<T>(p: T -> bool, s: seq<T>)
    requires forall x :: x in s ==> p(x)
    ensures Filter(p, s) == s
  {
    if |s| > 0 { FilterAll(p, s[1..]); }
  }

  /** A weaker filter beforehand makes no difference. */
  lemma {:induction false} FilterTwice<T(!new)>(p: T -> bool, q: T -> bool, s: seq<T>)
    requires forall x :: p(x) ==> q(x)
    ensures Filter(p, Filter(q, s)) == Filter(p, s)
  {
    if |s| > 0 {
      FilterTwice(p, q, s[1..]);
      if q(s[0]) { FilterCons(p, s[0], Filter(q, s[1..])); }
    }
  }

  /** A map that respects `p` and moves no element of `p` is invisible to it. */
  lemma {:induction false} FilterMapSame<T(!new)>(p: T -> bool, f: T -> T, s: seq<T>)
    requires forall x :: p(f(x)) == p(x) && (p(x) ==> f(x) == x)
    ensures Filter(p, Map(f, s)) == Filter(p, s)
  {
    if |s| > 0 {
      FilterMapSame(p, f, s[1..]);
      MapCons(f, s);
      FilterCons(p, f(s[0]), Map(f, s[1..]));
    }
  }

  lemma {:induction false} FilterMap<T(!new)>(p: T -> bool, q: T -> bool, f: T -> T, s: seq<T>)
    requires forall x :: p(f(x)) <==> p(x) && q(f(x))
    ensures Filter(p, Map(f, s)) == Filter(q, Map(f, Filter(p, s)))
  {
    if |s| > 0 {
      FilterMap(p, q, f, s[1..]);
      MapCons(f, s);
      FilterCons(p, f(s[0]), Map(f, s[1..]));
      if p(s[0]) {
        var kept := [s[0]] + Filter(p, s[1..]);
        MapCons(f, kept);
        assert kept[1..] == Filter(p, s[1..]);
        FilterCons(q, f(s[0]), Map(f, kept[1..]));
      }
    }
  }

  lemma MapSame<T>(f: T -> T, s: seq<T>)
    requires forall x :: x in s ==> f(x) == x
    ensures Map(f, s) == s
  {
  }
}

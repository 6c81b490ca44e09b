/** Result shapes shared by every module: optional values, fallible results, and the
    outcome of polling a future or a stream. */
module Wrappers {
  datatype Option<+T> = None | Some(value: T)

  datatype Result<+T, +E> = Success(value: T) | Failure(error: E)

  datatype Either<+A, +B> = Left(left: A) | Right(right: B)

  datatype Poll<+T> = Pending | Ready(value: T)
}

/** Sequences seen through a function that keeps some elements and turns them into others. */
module Sequences {
  function Collect<A, B>(f: A -> seq<B>, s: seq<A>): seq<B> {
    if s == [] then [] else f(s[0]) + Collect(f, s[1..])
  }

  lemma Assoc<T>(x: seq<T>, y: seq<T>, z: seq<T>)
    ensures x + (y + z) == x + y + z
  {}

  lemma {:induction false} CollectConcat<A, B>(f: A -> seq<B>, a: seq<A>, b: seq<A>)
    ensures Collect(f, a + b) == Collect(f, a) + Collect(f, b)
  {
    if a == [] {
      assert a + b == b;
    } else {
      CollectConcat(f, a[1..], b);
      assert (a + b)[1..] == a[1..] + b;
      Assoc(f(a[0]), Collect(f, a[1..]), Collect(f, b));
    }
  }

  lemma CollectOne<A, B>(f: A -> seq<B>, x: A)
    ensures Collect(f, [x]) == f(x)
  {}

  lemma CollectSnoc<A, B>(f: A -> seq<B>, a: seq<A>, x: A)
    ensures Collect(f, a + [x]) == Collect(f, a) + f(x)
  {
    CollectConcat(f, a, [x]);
    CollectOne(f, x);
  }

  ghost predicate Distinct<T(!new)>(s: seq<T>) {
    forall i, j :: 0 <= i < j < |s| ==> s[i] != s[j]
  }
}

/** Tokens that are always at exactly one stage: a map says where each is, and a stage holds a
    sequence of them.  Steps take tokens off the front of one stage and put them behind another. */
module Staging {
  import opened Sequences

  /** Exactly the tokens said to be at `s` are held there, each once. */
  ghost predicate HoldsExactly<K(!new), S(!new)>(stage: map<K, S>, s: S, held: seq<K>) {
    Distinct(held) && forall x :: x in held <==> x in stage && stage[x] == s
  }

  function Moved<K, S>(stage: map<K, S>, moved: seq<K>, to: S): map<K, S> {
    map x | x in stage :: if x in moved then to else stage[x]
  }

  lemma MovedHolds<K(!new), S(!new)>(stage: map<K, S>, from: S, to: S, moved: seq<K>, rest: seq<K>, there: seq<K>)
    requires from != to
    requires HoldsExactly(stage, from, moved + rest) && HoldsExactly(stage, to, there)
    ensures HoldsExactly(Moved(stage, moved, to), from, rest)
    ensures HoldsExactly(Moved(stage, moved, to), to, there + moved)
  {
    var all := moved + rest;
    forall x | x in moved
      ensures x in all && x !in rest && x !in there
    {
      var i :| 0 <= i < |moved| && moved[i] == x;
      assert all[i] == x;
      forall j | 0 <= j < |rest|
        ensures rest[j] != x
      {
        assert all[|moved| + j] == rest[j];
      }
    }
    forall x | x in rest
      ensures x in all
    {
      var j :| 0 <= j < |rest| && rest[j] == x;
      assert all[|moved| + j] == x;
    }
    DistinctParts(moved, rest);
    forall i, j | 0 <= i < j < |there + moved|
      ensures (there + moved)[i] != (there + moved)[j]
    {
      if i < |there| <= j {
        assert moved[j - |there|] in moved;
      }
    }
    forall x
      ensures x in rest <==> x in Moved(stage, moved, to) && Moved(stage, moved, to)[x] == from
    {
      if x in all && x !in rest {
        assert x in moved;
      }
    }
  }

  lemma DistinctParts<K(!new)>(a: seq<K>, b: seq<K>)
    requires Distinct(a + b)
    ensures Distinct(a) && Distinct(b)
  {
    forall i, j | 0 <= i < j < |a|
      ensures a[i] != a[j]
    {
      assert (a + b)[i] == a[i] && (a + b)[j] == a[j];
    }
    forall i, j | 0 <= i < j < |b|
      ensures b[i] != b[j]
    {
      assert (a + b)[|a| + i] == b[i] && (a + b)[|a| + j] == b[j];
    }
  }

  lemma OthersHold<K(!new), S(!new)>(stage: map<K, S>, from: S, to: S, moved: seq<K>, rest: seq<K>,
                                     other: S, held: seq<K>)
    requires other != from && other != to
    requires HoldsExactly(stage, from, moved + rest) && HoldsExactly(stage, other, held)
    ensures HoldsExactly(Moved(stage, moved, to), other, held)
  {
    forall x | x in moved
      ensures x in moved + rest
    {}
  }

  /** One move, for all stages at once: `held` before it, `after` after it. */
  lemma MoveKeepsAll<K(!new), S(!new)>(stage: map<K, S>, held: S -> seq<K>, after: S -> seq<K>,
                                       from: S, to: S, moved: seq<K>)
    requires forall s :: HoldsExactly(stage, s, held(s))
    requires from != to
    requires held(from) == moved + after(from)
    requires after(to) == held(to) + moved
    requires forall s :: s != from && s != to ==> after(s) == held(s)
    ensures forall s :: HoldsExactly(Moved(stage, moved, to), s, after(s))
  {
    assert HoldsExactly(stage, from, held(from));
    assert HoldsExactly(stage, to, held(to));
    MovedHolds(stage, from, to, moved, after(from), held(to));
    forall s
      ensures HoldsExactly(Moved(stage, moved, to), s, after(s))
    {
      if s != from && s != to {
        assert HoldsExactly(stage, s, held(s));
        OthersHold(stage, from, to, moved, after(from), s, held(s));
      }
    }
  }

  lemma MovingNothing<K, S>(stage: map<K, S>, to: S)
    ensures Moved(stage, [], to) == stage
  {}

  /** A new token enters at one stage. */
  lemma AddKeepsAll<K(!new), S(!new)>(stage: map<K, S>, held: S -> seq<K>, after: S -> seq<K>, at: S, x: K)
    requires forall s :: HoldsExactly(stage, s, held(s))
    requires x !in stage
    requires after(at) == held(at) + [x]
    requires forall s :: s != at ==> after(s) == held(s)
    ensures forall s :: HoldsExactly(stage[x := at], s, after(s))
  {
    forall s
      ensures HoldsExactly(stage[x := at], s, after(s))
    {
      assert HoldsExactly(stage, s, held(s));
      if s == at {
        assert x !in held(s);
      }
    }
  }
}

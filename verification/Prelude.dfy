/** Small vocabulary shared by the models: optional values, and counting in a sequence. */
module Prelude {

  datatype Option<+T> = None | Some(value: T)

  /** Number of positions of `s` whose element satisfies `p`. */
  function Count<T>(s: seq<T>, p: T -> bool): (n: nat)
    ensures n <= |s|
  {
    if |s| == 0 then 0
    else Count(s[..|s| - 1], p) + if p(s[|s| - 1]) then 1 else 0
  }

  lemma CountSnoc<T>(s: seq<T>, x: T, p: T -> bool)
    ensures Count(s + [x], p) == Count(s, p) + if p(x) then 1 else 0
  {
    assert (s + [x])[..|s|] == s;
  }

  /** Position by position implication between two sequences of the same length orders the counts. */
  lemma {:induction false} CountLe<T>(s: seq<T>, p: T -> bool, t: seq<T>, q: T -> bool)
    requires |s| == |t|
    requires forall i :: 0 <= i < |s| ==> p(s[i]) ==> q(t[i])
    ensures Count(s, p) <= Count(t, q)
  {
    if |s| > 0 {
      CountLe(s[..|s| - 1], p, t[..|t| - 1], q);
    }
  }

  lemma CountEq<T>(s: seq<T>, p: T -> bool, t: seq<T>, q: T -> bool)
    requires |s| == |t|
    requires forall i :: 0 <= i < |s| ==> (p(s[i]) <==> q(t[i]))
    ensures Count(s, p) == Count(t, q)
  {
    CountLe(s, p, t, q);
    CountLe(t, q, s, p);
  }

  lemma {:induction false} CountUpdate<T>(s: seq<T>, i: nat, x: T, p: T -> bool)
    requires i < |s|
    ensures Count(s[i := x], p) == Count(s, p) - (if p(s[i]) then 1 else 0) + (if p(x) then 1 else 0)
  {
    var last := |s| - 1;
    if i == last {
      assert s[i := x][..last] == s[..last];
    } else {
      assert s[i := x][..last] == s[..last][i := x];
      CountUpdate(s[..last], i, x, p);
    }
  }

  /** If one position satisfies `q` but not `p`, the inequality of `CountLe` is strict. */
  lemma {:induction false} CountLt<T>(s: seq<T>, p: T -> bool, t: seq<T>, q: T -> bool, k: nat)
    requires |s| == |t| && k < |s|
    requires forall i :: 0 <= i < |s| ==> p(s[i]) ==> q(t[i])
    requires !p(s[k]) && q(t[k])
    ensures Count(s, p) < Count(t, q)
  {
    if k == |s| - 1 {
      CountLe(s[..|s| - 1], p, t[..|t| - 1], q);
    } else {
      CountLt(s[..|s| - 1], p, t[..|t| - 1], q, k);
    }
  }

  lemma {:induction false} CountZero<T>(s: seq<T>, p: T -> bool)
    requires forall i :: 0 <= i < |s| ==> !p(s[i])
    ensures Count(s, p) == 0
  {
    if |s| > 0 {
      CountZero(s[..|s| - 1], p);
    }
  }

  /** A positive count has a witness. */
  lemma {:induction false} CountWitness<T>(s: seq<T>, p: T -> bool) returns (k: nat)
    requires Count(s, p) > 0
    ensures k < |s| && p(s[k])
  {
    if p(s[|s| - 1]) {
      k := |s| - 1;
    } else {
      k := CountWitness(s[..|s| - 1], p);
    }
  }

  /** If every `p` is a `q` or an `r`, the counts of `q` and `r` together bound the count of `p`. */
  lemma {:induction false} CountSplit<T>(s: seq<T>, p: T -> bool, q: T -> bool, r: T -> bool)
    requires forall i :: 0 <= i < |s| ==> p(s[i]) ==> q(s[i]) || r(s[i])
    ensures Count(s, p) <= Count(s, q) + Count(s, r)
  {
    if |s| > 0 {
      CountSplit(s[..|s| - 1], p, q, r);
    }
  }

  /** A count in two parts that exclude each other. */
  lemma {:induction false} CountParts<T>(s: seq<T>, p: T -> bool, q: T -> bool, r: T -> bool)
    requires forall i :: 0 <= i < |s| ==> (p(s[i]) <==> q(s[i]) || r(s[i])) && !(q(s[i]) && r(s[i]))
    ensures Count(s, p) == Count(s, q) + Count(s, r)
  {
    if |s| > 0 {
      CountParts(s[..|s| - 1], p, q, r);
    }
  }

  lemma {:induction false} CountOnce<T>(s: seq<T>, p: T -> bool)
    requires forall i, j :: 0 <= i < j < |s| ==> !(p(s[i]) && p(s[j]))
    ensures Count(s, p) <= 1
  {
    if |s| > 0 {
      if p(s[|s| - 1]) {
        CountZero(s[..|s| - 1], p);
      } else {
        CountOnce(s[..|s| - 1], p);
      }
    }
  }

  /** Elements that each point to a position of their own cannot outnumber what they point to. */
  lemma {:induction false} CountInjection<T, U>(s: seq<T>, p: T -> bool, at: T -> nat, t: seq<U>, q: U -> bool)
    requires forall i :: 0 <= i < |s| ==> p(s[i]) ==> at(s[i]) < |t| && q(t[at(s[i])])
    requires forall i, j :: 0 <= i < j < |s| ==> p(s[i]) && p(s[j]) ==> at(s[i]) != at(s[j])
    ensures Count(s, p) <= Count(t, q)
    decreases |t|
  {
    if |t| == 0 {
      CountZero(s, p);
    } else {
      var last := |t| - 1;
      var here, before := (x: T) => p(x) && at(x) == last, (x: T) => p(x) && at(x) != last;
      CountParts(s, p, here, before);
      if q(t[last]) { CountOnce(s, here); } else { CountZero(s, here); }
      CountInjection(s, before, at, t[..last], q);
    }
  }

  /** Sum of `f` over the positions of `s`. */
  function Sum<T>(s: seq<T>, f: T -> int): int {
    if |s| == 0 then 0 else Sum(s[..|s| - 1], f) + f(s[|s| - 1])
  }

  lemma SumSnoc<T>(s: seq<T>, x: T, f: T -> int)
    ensures Sum(s + [x], f) == Sum(s, f) + f(x)
  {
    assert (s + [x])[..|s|] == s;
  }

  lemma {:induction false} SumUpdate<T>(s: seq<T>, i: nat, x: T, f: T -> int)
    requires i < |s|
    ensures Sum(s[i := x], f) == Sum(s, f) - f(s[i]) + f(x)
  {
    var last := |s| - 1;
    if i == last {
      assert s[i := x][..last] == s[..last];
    } else {
      assert s[i := x][..last] == s[..last][i := x];
      SumUpdate(s[..last], i, x, f);
    }
  }

  /** Terms that are all zero add up to zero. */
  lemma {:induction false} SumZero<T>(s: seq<T>, f: T -> int)
    requires forall i :: 0 <= i < |s| ==> f(s[i]) == 0
    ensures Sum(s, f) == 0
  {
    if |s| > 0 {
      SumZero(s[..|s| - 1], f);
    }
  }

  /**
   * The first element of a stable newest-first sort of the elements satisfying `ok`:
   * the position of the newest such element, the earliest inserted one among equals.
   */
  function Newest<T>(s: seq<T>, ok: T -> bool, created: T -> int): (r: Option<nat>)
    ensures r.None? ==> forall j :: 0 <= j < |s| ==> !ok(s[j])
    ensures r.Some? ==> r.value < |s| && ok(s[r.value])
    ensures r.Some? ==> forall j :: 0 <= j < |s| && ok(s[j]) ==>
              created(s[j]) < created(s[r.value]) || (created(s[j]) == created(s[r.value]) && r.value <= j)
  {
    if |s| == 0 then None
    else
      var last := |s| - 1;
      var r := Newest(s[..last], ok, created);
      if ok(s[last]) && (r.None? || created(s[r.value]) < created(s[last])) then Some(last) else r
  }
}

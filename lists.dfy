// The two list idioms the library is built from: `next((x for x in t if p(x)),
// None)`, the first element satisfying a condition, and `[x for x in s if not
// test(x)]`, a filter whose test may raise.
module Lists {

  import opened Py

  /** The position of the first element of `t` satisfying `p`, or `|t|` if there is none. */
  function FirstIndex<T>(t: seq<T>, p: T -> bool): (i: nat)
    ensures i <= |t|
    ensures i < |t| ==> p(t[i])
    ensures forall j :: 0 <= j < i ==> !p(t[j])
  {
    if t == [] then 0
    else if p(t[0]) then 0
    else 1 + FirstIndex(t[1..], p)
  }

  /** The position of the first `true` in `b`, or `|b|` when there is none. */
  lemma {:induction false} FirstTrue(b: seq<bool>) returns (i: nat)
    ensures i <= |b| && (i < |b| ==> b[i])
    ensures forall k :: 0 <= k < i ==> !b[k]
  {
    if b == [] || b[0] {
      return 0;
    }
    var j := FirstTrue(b[1..]);
    assert forall k :: 0 <= k < j ==> b[1..][k] == b[k + 1];
    return j + 1;
  }

  /** The first element of `t` satisfying `p`, if any. */
  function FindFirst<T>(t: seq<T>, p: T -> bool): (r: Option<T>)
    ensures r.None? <==> forall j :: 0 <= j < |t| ==> !p(t[j])
    ensures r.Some? ==> r.value in t && p(r.value)
  {
    var i := FirstIndex(t, p);
    if i < |t| then Some(t[i]) else None
  }

  /** When `t[j]` is the first element satisfying `p`, it is the one found. */
  lemma FindFirstAt<T>(t: seq<T>, p: T -> bool, j: nat)
    requires j < |t| && p(t[j])
    requires forall k :: 0 <= k < j ==> !p(t[k])
    ensures FindFirst(t, p) == Some(t[j])
  {
  }

  /** Conditions that agree on every element of `t` find the same element. */
  lemma {:induction false} FindFirstSame<T>(t: seq<T>, p: T -> bool, q: T -> bool)
    requires forall k :: 0 <= k < |t| ==> p(t[k]) == q(t[k])
    ensures FirstIndex(t, p) == FirstIndex(t, q)
    ensures FindFirst(t, p) == FindFirst(t, q)
  {
    if t != [] {
      assert forall k :: 0 <= k < |t[1..]| ==> t[1..][k] == t[k + 1];
      FindFirstSame(t[1..], p, q);
    }
  }

  /**
   * `[x for x in s if not test(x)]`: the elements whose test is false, in order;
   * the first test that raises aborts the whole comprehension.
   */
  function RemoveWhere<T>(s: seq<T>, test: T -> Result<bool>): (r: Result<seq<T>>)
    ensures r.Err? <==> exists k :: 0 <= k < |s| && test(s[k]).Err?
    ensures r.Err? ==>
      exists k :: 0 <= k < |s| && test(s[k]) == Err(r.error) && forall j :: 0 <= j < k ==> test(s[j]).Ok?
    ensures r.Ok? ==> |r.value| <= |s|
  {
    if s == [] then Ok([])
    else
      match test(s[0])
      case Err(e) => Err(e)
      case Ok(drop) =>
        match RemoveWhere(s[1..], test)
        case Err(e) => Err(e)
        case Ok(rest) => Ok(if drop then rest else [s[0]] + rest)
  }

  /** `sub` is `s` with some of its elements left out, in the same order. */
  predicate IsSubsequence<T(==)>(sub: seq<T>, s: seq<T>)
    decreases |s|
  {
    sub == [] ||
    (s != [] && ((sub[0] == s[0] && IsSubsequence(sub[1..], s[1..])) || IsSubsequence(sub, s[1..])))
  }

  /** The filter keeps the elements it keeps in their original order. */
  lemma {:induction false} RemoveWhereKeepsOrder<T>(s: seq<T>, test: T -> Result<bool>)
    requires RemoveWhere(s, test).Ok?
    ensures IsSubsequence(RemoveWhere(s, test).value, s)
  {
    if s != [] {
      RemoveWhereKeepsOrder(s[1..], test);
      var r := RemoveWhere(s, test).value;
      if test(s[0]) == Ok(false) {
        assert r[1..] == RemoveWhere(s[1..], test).value;
      }
    }
  }

  /** No element whose test is true is left. */
  lemma {:induction false} RemoveWhereLeavesNone<T>(s: seq<T>, test: T -> Result<bool>)
    requires RemoveWhere(s, test).Ok?
    ensures var r := RemoveWhere(s, test).value;
      forall k :: 0 <= k < |r| ==> test(r[k]) == Ok(false)
  {
    if s != [] {
      RemoveWhereLeavesNone(s[1..], test);
    }
  }

  /** Every element whose test is false is kept as often as it occurs; no other is. */
  lemma {:induction false} RemoveWhereCounts<T>(s: seq<T>, test: T -> Result<bool>)
    requires RemoveWhere(s, test).Ok?
    ensures var r := RemoveWhere(s, test).value;
      forall x :: multiset(r)[x] == if test(x) == Ok(false) then multiset(s)[x] else 0
  {
    if s != [] {
      RemoveWhereCounts(s[1..], test);
      assert s == [s[0]] + s[1..];
    }
  }

  /** Filtering a concatenation filters each part. */
  lemma {:induction false} RemoveWhereAppend<T>(a: seq<T>, b: seq<T>, test: T -> Result<bool>)
    requires RemoveWhere(a, test).Ok? && RemoveWhere(b, test).Ok?
    ensures RemoveWhere(a + b, test) == Ok(RemoveWhere(a, test).value + RemoveWhere(b, test).value)
  {
    if a == [] {
      assert a + b == b;
      assert [] + RemoveWhere(b, test).value == RemoveWhere(b, test).value;
    } else {
      assert (a + b)[0] == a[0];
      assert (a + b)[1..] == a[1..] + b;
      RemoveWhereAppend(a[1..], b, test);
      var ra := RemoveWhere(a[1..], test).value;
      var rb := RemoveWhere(b, test).value;
      assert [a[0]] + ra + rb == [a[0]] + (ra + rb);
    }
  }

  /** A list whose every test is false is returned whole. */
  lemma {:induction false} RemoveWhereKeepsAll<T>(s: seq<T>, test: T -> Result<bool>)
    requires forall k :: 0 <= k < |s| ==> test(s[k]) == Ok(false)
    ensures RemoveWhere(s, test) == Ok(s)
  {
    if s != [] {
      RemoveWhereKeepsAll(s[1..], test);
      assert [s[0]] + s[1..] == s;
    }
  }

  /** A list whose every test is true is emptied. */
  lemma {:induction false} RemoveWhereDropsAll<T>(s: seq<T>, test: T -> Result<bool>)
    requires forall k :: 0 <= k < |s| ==> test(s[k]) == Ok(true)
    ensures RemoveWhere(s, test) == Ok([])
  {
    if s != [] {
      RemoveWhereDropsAll(s[1..], test);
    }
  }

  /** Filtering a filtered list changes nothing. */
  lemma RemoveWhereIdempotent<T>(s: seq<T>, test: T -> Result<bool>)
    requires RemoveWhere(s, test).Ok?
    ensures RemoveWhere(RemoveWhere(s, test).value, test) == RemoveWhere(s, test)
  {
    RemoveWhereLeavesNone(s, test);
    RemoveWhereKeepsAll(RemoveWhere(s, test).value, test);
  }

  /**
   * A loop that updates the elements of a list in place, one after the other,
   * and stops at the first update that raises: the list as it is afterwards,
   * and the exception, if any. `step` gives an element's new value and what
   * it raised; the failing element keeps what its step did before raising.
   */
  function UpdateEach<T>(s: seq<T>, step: T -> (T, Option<Exception>)): (r: (seq<T>, Option<Exception>))
    ensures |r.0| == |s|
  {
    var i := FirstIndex(s, (x: T) => step(x).1.Some?);
    if i == |s| then (seq(|s|, k requires 0 <= k < |s| => step(s[k]).0), None)
    else (seq(i, k requires 0 <= k < i => step(s[k]).0) + [step(s[i]).0] + s[i + 1..], step(s[i]).1)
  }

  /**
   * The loop raises exactly when some element's step does. Then the exception
   * is the first such element's; the elements before it are updated, it keeps
   * what its step did, and the rest are untouched. Otherwise every element is
   * updated, in order.
   */
  lemma UpdateEachSpec<T>(s: seq<T>, step: T -> (T, Option<Exception>))
    ensures var r := UpdateEach(s, step);
      && (r.1.None? <==> forall k :: 0 <= k < |s| ==> step(s[k]).1.None?)
      && (r.1.None? ==> forall k :: 0 <= k < |s| ==> r.0[k] == step(s[k]).0)
      && (r.1.Some? ==>
           exists i :: 0 <= i < |s| && step(s[i]).1.Some? && r.1 == step(s[i]).1
             && (forall k :: 0 <= k < i ==> step(s[k]).1.None? && r.0[k] == step(s[k]).0)
             && r.0[i] == step(s[i]).0 && r.0[i + 1..] == s[i + 1..])
  {
    var i := FirstIndex(s, (x: T) => step(x).1.Some?);
    if i < |s| {
      var r := UpdateEach(s, step);
      assert r.0[i + 1..] == s[i + 1..];
    }
  }

  /** A loop that stopped at element `i` leaves the list as `out`. */
  lemma UpdateEachStopsAt<T>(s: seq<T>, step: T -> (T, Option<Exception>), i: nat, out: seq<T>)
    requires i < |s| == |out| && step(s[i]).1.Some?
    requires forall k :: 0 <= k < i ==> step(s[k]).1.None? && out[k] == step(s[k]).0
    requires out[i] == step(s[i]).0 && out[i + 1..] == s[i + 1..]
    ensures UpdateEach(s, step) == (out, step(s[i]).1)
  {
    var r := UpdateEach(s, step);
    assert forall k :: i < k < |s| ==> out[k] == out[i + 1..][k - i - 1] && r.0[k] == r.0[i + 1..][k - i - 1];
    assert r.0 == out;
  }

  /** A loop that ran to the end leaves the list as `out`. */
  lemma UpdateEachCompletes<T>(s: seq<T>, step: T -> (T, Option<Exception>), out: seq<T>)
    requires |s| == |out|
    requires forall k :: 0 <= k < |s| ==> step(s[k]).1.None? && out[k] == step(s[k]).0
    ensures UpdateEach(s, step) == (out, None)
  {
    var r := UpdateEach(s, step);
    assert r.0 == out;
  }

  /**
   * A loop that maps each element to a value and stops at the first element
   * whose mapping raises: the values of all elements, or that exception.
   */
  function MapUntilError<A, B>(xs: seq<A>, f: A -> Result<B>): (r: Result<seq<B>>)
    ensures r.Ok? ==> |r.value| == |xs|
  {
    var i := FirstIndex(xs, (x: A) => f(x).Err?);
    if i < |xs| then Err(f(xs[i]).error) else Ok(seq(|xs|, k requires 0 <= k < |xs| => f(xs[k]).value))
  }

  /**
   * The mapping succeeds exactly when every element's does, and then holds each
   * element's value in order. Otherwise it raises the first failing element's
   * exception.
   */
  lemma MapUntilErrorSpec<A, B>(xs: seq<A>, f: A -> Result<B>)
    ensures var r := MapUntilError(xs, f);
      && (r.Ok? <==> forall k :: 0 <= k < |xs| ==> f(xs[k]).Ok?)
      && (r.Ok? ==> forall k :: 0 <= k < |xs| ==> r.value[k] == f(xs[k]).value)
      && (r.Err? ==> exists i :: 0 <= i < |xs| && f(xs[i]) == Err(r.error) && forall k :: 0 <= k < i ==> f(xs[k]).Ok?)
  {
    var i := FirstIndex(xs, (x: A) => f(x).Err?);
    if i < |xs| {
      assert f(xs[i]) == Err(f(xs[i]).error);
    }
  }

  /** A mapping loop that stopped at element `i` raised that element's exception. */
  lemma MapUntilErrorStopsAt<A, B>(xs: seq<A>, f: A -> Result<B>, i: nat)
    requires i < |xs| && f(xs[i]).Err?
    requires forall k :: 0 <= k < i ==> f(xs[k]).Ok?
    ensures MapUntilError(xs, f) == Err(f(xs[i]).error)
  {
  }

  /** A mapping loop that ran to the end collected `out`. */
  lemma MapUntilErrorCompletes<A, B>(xs: seq<A>, f: A -> Result<B>, out: seq<B>)
    requires |xs| == |out|
    requires forall k :: 0 <= k < |xs| ==> f(xs[k]).Ok? && out[k] == f(xs[k]).value
    ensures MapUntilError(xs, f) == Ok(out)
  {
    assert MapUntilError(xs, f).value == out;
  }

  /**
   * A loop that fetches a list for each element and gathers the lists, one
   * after the other, stopping at the first fetch that raises. `fetch` gives the
   * outcome for one element and `sends` the requests made for it. The result is
   * the outcome of the whole loop and every request sent.
   */
  function Gather<A, B, Q>(xs: seq<A>, fetch: A -> Result<seq<B>>, sends: A -> seq<Q>): (Result<seq<B>>, seq<Q>)
  {
    if xs == [] then (Ok([]), [])
    else
      var prev := Gather(xs[..|xs| - 1], fetch, sends);
      if prev.0.Err? then prev
      else
        var x := xs[|xs| - 1];
        (if fetch(x).Err? then Err(fetch(x).error) else Ok(prev.0.value + fetch(x).value), prev.1 + sends(x))
  }

  /** One more round of the gathering loop after a prefix that raised nothing. */
  lemma GatherSnoc<A, B, Q>(xs: seq<A>, i: nat, fetch: A -> Result<seq<B>>, sends: A -> seq<Q>)
    requires i < |xs| && Gather(xs[..i], fetch, sends).0.Ok?
    ensures var prev := Gather(xs[..i], fetch, sends);
      Gather(xs[..i + 1], fetch, sends)
        == (if fetch(xs[i]).Err? then Err(fetch(xs[i]).error) else Ok(prev.0.value + fetch(xs[i]).value),
            prev.1 + sends(xs[i]))
  {
    assert xs[..i + 1][..i] == xs[..i];
  }

  /**
   * The gathering loop after a prefix that raised nothing and gathered `acc`:
   * a failing fetch of element `i` ends the whole loop, a successful one
   * extends the prefix by its list.
   */
  lemma GatherNext<A, B, Q>(xs: seq<A>, i: nat, fetch: A -> Result<seq<B>>, sends: A -> seq<Q>, acc: seq<B>)
    requires i < |xs| && Gather(xs[..i], fetch, sends).0 == Ok(acc)
    ensures fetch(xs[i]).Err? ==>
      Gather(xs, fetch, sends) == (Err(fetch(xs[i]).error), Gather(xs[..i], fetch, sends).1 + sends(xs[i]))
    ensures fetch(xs[i]).Ok? ==>
      Gather(xs[..i + 1], fetch, sends) == (Ok(acc + fetch(xs[i]).value), Gather(xs[..i], fetch, sends).1 + sends(xs[i]))
  {
    GatherSnoc(xs, i, fetch, sends);
    if fetch(xs[i]).Err? {
      GatherStopsAfterError(xs, i + 1, fetch, sends);
    }
  }

  /** Once the loop has raised, the remaining elements change nothing. */
  lemma {:induction false} GatherStopsAfterError<A, B, Q>(xs: seq<A>, i: nat, fetch: A -> Result<seq<B>>, sends: A -> seq<Q>)
    requires i <= |xs| && Gather(xs[..i], fetch, sends).0.Err?
    ensures Gather(xs, fetch, sends) == Gather(xs[..i], fetch, sends)
    decreases |xs| - i
  {
    if i < |xs| {
      assert xs[..|xs| - 1][..i] == xs[..i];
      GatherStopsAfterError(xs[..|xs| - 1], i, fetch, sends);
    } else {
      assert xs[..i] == xs;
    }
  }

  /** Every fetch succeeds. */
  predicate AllOk<A, B>(xs: seq<A>, fetch: A -> Result<seq<B>>)
  {
    forall k :: 0 <= k < |xs| ==> fetch(xs[k]).Ok?
  }

  /** The fetched lists joined in order, when every fetch succeeds. */
  function Joined<A, B>(xs: seq<A>, fetch: A -> Result<seq<B>>): seq<B>
    requires AllOk(xs, fetch)
  {
    if xs == [] then [] else fetch(xs[0]).value + Joined(xs[1..], fetch)
  }

  /** The requests made for every element, in order. */
  function AllSent<A, Q>(xs: seq<A>, sends: A -> seq<Q>): seq<Q>
  {
    if xs == [] then [] else sends(xs[0]) + AllSent(xs[1..], sends)
  }

  lemma {:induction false} JoinedSnoc<A, B>(xs: seq<A>, fetch: A -> Result<seq<B>>)
    requires xs != [] && AllOk(xs, fetch)
    ensures AllOk(xs[..|xs| - 1], fetch)
    ensures Joined(xs, fetch) == Joined(xs[..|xs| - 1], fetch) + fetch(xs[|xs| - 1]).value
  {
    var init := xs[..|xs| - 1];
    assert forall k :: 0 <= k < |init| ==> init[k] == xs[k];
    if |xs| > 1 {
      assert xs[1..][..|xs[1..]| - 1] == init[1..];
      assert forall k :: 0 <= k < |xs[1..]| ==> xs[1..][k] == xs[k + 1];
      JoinedSnoc(xs[1..], fetch);
      var h := fetch(xs[0]).value;
      var l := fetch(xs[|xs| - 1]).value;
      assert h + (Joined(init[1..], fetch) + l) == (h + Joined(init[1..], fetch)) + l;
    } else {
      assert init == [];
    }
  }

  lemma {:induction false} AllSentSnoc<A, Q>(xs: seq<A>, sends: A -> seq<Q>)
    requires xs != []
    ensures AllSent(xs, sends) == AllSent(xs[..|xs| - 1], sends) + sends(xs[|xs| - 1])
  {
    var init := xs[..|xs| - 1];
    if |xs| > 1 {
      assert xs[1..][..|xs[1..]| - 1] == init[1..];
      AllSentSnoc(xs[1..], sends);
      var h := sends(xs[0]);
      var l := sends(xs[|xs| - 1]);
      assert h + (AllSent(init[1..], sends) + l) == (h + AllSent(init[1..], sends)) + l;
    } else {
      assert init == [];
      assert [] + sends(xs[0]) == sends(xs[0]);
    }
  }

  /** When every element makes one request, the requests are theirs, in order. */
  lemma {:induction false} AllSentSingletons<A, Q>(xs: seq<A>, sends: A -> seq<Q>)
    requires forall k :: 0 <= k < |xs| ==> |sends(xs[k])| == 1
    ensures |AllSent(xs, sends)| == |xs|
    ensures forall k :: 0 <= k < |xs| ==> AllSent(xs, sends)[k] == sends(xs[k])[0]
  {
    if xs != [] {
      assert forall k :: 0 <= k < |xs[1..]| ==> xs[1..][k] == xs[k + 1];
      AllSentSingletons(xs[1..], sends);
    }
  }

  /**
   * The gathering loop succeeds exactly when every fetch does. It then returns
   * the fetched lists joined in order, and has made every element's requests.
   * Otherwise it raises the exception of the first fetch that fails, having
   * made the requests of the elements up to and including that one.
   */
  lemma {:induction false} GatherSpec<A, B, Q>(xs: seq<A>, fetch: A -> Result<seq<B>>, sends: A -> seq<Q>)
    ensures var (r, sent) := Gather(xs, fetch, sends);
      && (r.Ok? <==> AllOk(xs, fetch))
      && (r.Ok? ==> r.value == Joined(xs, fetch) && sent == AllSent(xs, sends))
      && (r.Err? ==>
           exists i :: 0 <= i < |xs| && AllOk(xs[..i], fetch) && fetch(xs[i]) == r
             && sent == AllSent(xs[..i], sends) + sends(xs[i]))
  {
    if xs != [] {
      var n := |xs| - 1;
      var init := xs[..n];
      GatherSpec(init, fetch, sends);
      AllSentSnoc(xs, sends);
      assert forall k :: 0 <= k < |init| ==> init[k] == xs[k];
      var (r0, sent0) := Gather(init, fetch, sends);
      if r0.Err? {
        var i :| 0 <= i < |init| && AllOk(init[..i], fetch) && fetch(init[i]) == r0
          && sent0 == AllSent(init[..i], sends) + sends(init[i]);
        assert init[..i] == xs[..i];
        assert !fetch(xs[i]).Ok?;
      } else if fetch(xs[n]).Ok? {
        JoinedSnoc(xs, fetch);
      } else {
        assert init == xs[..n];
      }
    }
  }
}

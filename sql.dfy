/** Parameterised SQL as the routes build it: query text interleaved with `$n`
    placeholders, and the array of values the placeholders stand for. A query is well
    numbered when its placeholders read `$1, $2, ..., $k` in order and `k` is the number
    of values; a filter clause binds the value whose placeholder directly follows it. */
module Sql {
  import opened Wrappers
  import opened Js

  datatype Part = Text(text: string) | Placeholder(n: nat)

  /** The placeholder numbers of `q`, in order. */
  function Numbers(q: seq<Part>): (ns: seq<nat>)
    ensures |ns| <= |q|
  {
    if q == [] then []
    else if q[|q| - 1].Placeholder? then Numbers(q[..|q| - 1]) + [q[|q| - 1].n]
    else Numbers(q[..|q| - 1])
  }

  /** `[1, 2, ..., k]`. */
  function OneTo(k: nat): (r: seq<nat>)
    ensures |r| == k && forall i :: 0 <= i < k ==> r[i] == i + 1
  {
    seq(k, i requires 0 <= i < k => i + 1)
  }

  predicate NumberedUpTo(q: seq<Part>, k: nat) {
    Numbers(q) == OneTo(k)
  }

  /** The value bound to the first occurrence of clause `text` that a placeholder
      directly follows, if any. */
  function Binding(q: seq<Part>, params: seq<Scalar>, text: string): Option<Scalar>
  {
    if |q| < 2 then None
    else if q[0] == Text(text) && q[1].Placeholder? && 1 <= q[1].n <= |params| then Some(params[q[1].n - 1])
    else Binding(q[1..], params, text)
  }

  /** A binding after one more clause: earlier bindings stay, and the new clause binds
      its value if it was not bound yet. */
  function Extended(before: Option<Scalar>, hit: bool, value: Scalar): Option<Scalar> {
    if before.Some? then before else if hit then Some(value) else None
  }

  /** Every placeholder number of `q` lies in `1..k`. */
  predicate Within(q: seq<Part>, k: nat) {
    forall i :: 0 <= i < |q| && q[i].Placeholder? ==> 1 <= q[i].n <= k
  }

  lemma {:induction false} NumbersAppend(q: seq<Part>, clause: string, n: nat)
    ensures Numbers(q + [Text(clause), Placeholder(n)]) == Numbers(q) + [n]
  {
    var q1 := q + [Text(clause)];
    var q2 := q1 + [Placeholder(n)];
    assert q1[..|q|] == q;
    assert Numbers(q1) == Numbers(q);
    assert q2[..|q1|] == q1;
    assert q2 == q + [Text(clause), Placeholder(n)];
    assert Numbers(q2) == Numbers(q1) + [n];
  }

  /** The placeholders of a well-numbered query are all within range. */
  lemma {:induction false} NumberedIsWithin(q: seq<Part>, k: nat)
    requires NumberedUpTo(q, k)
    ensures Within(q, k)
  {
    NumbersCover(q);
  }

  lemma {:induction false} NumbersCover(q: seq<Part>)
    ensures forall i :: 0 <= i < |q| && q[i].Placeholder? ==> q[i].n in Numbers(q)
  {
    if q != [] {
      var init := q[..|q| - 1];
      NumbersCover(init);
      forall i | 0 <= i < |q| && q[i].Placeholder?
        ensures q[i].n in Numbers(q)
      {
        if i < |q| - 1 {
          assert q[i] == init[i];
        }
      }
    }
  }

  /** Appending a clause and a placeholder for one more value leaves every earlier
      binding in place and binds the new clause, unless it was bound already. */
  lemma {:induction false} BindingAppend(q: seq<Part>, params: seq<Scalar>, clause: string, value: Scalar, t: string)
    requires Within(q, |params|)
    ensures Binding(q + [Text(clause), Placeholder(|params| + 1)], params + [value], t)
      == Extended(Binding(q, params, t), t == clause, value)
    decreases |q|
  {
    var tail := [Text(clause), Placeholder(|params| + 1)];
    var q' := q + tail;
    var p' := params + [value];
    if |q| == 0 {
      assert q' == tail;
      assert q'[1..] == [Placeholder(|params| + 1)];
      assert p'[|params|] == value;
    } else if |q| == 1 {
      assert q'[1..] == tail;
      assert tail[1..] == [Placeholder(|params| + 1)];
      assert p'[|params|] == value;
      assert Binding(tail, p', t) == (if t == clause then Some(value) else None);
      assert Binding(q', p', t) == Binding(tail, p', t);
    } else {
      assert q'[0] == q[0] && q'[1] == q[1];
      if q[0] == Text(t) && q[1].Placeholder? && 1 <= q[1].n <= |params| {
        assert p'[q[1].n - 1] == params[q[1].n - 1];
      } else {
        assert !(q[1].Placeholder? && q[1].n == |params| + 1);
        assert q'[1..] == q[1..] + tail;
        BindingAppend(q[1..], params, clause, value, t);
      }
    }
  }

  /** A query under construction: `query` grows by `+=`, `params` by `push`. */
  class QueryBuilder {
    var query: seq<Part>
    var params: seq<Scalar>

    predicate Numbered()
      reads this
    {
      NumberedUpTo(query, |params|)
    }

    /** The initial text with the first filter already bound to `$1`. */
    constructor (select: string, filter: string, first: Scalar)
      ensures query == [Text(select), Text(filter), Placeholder(1)] && params == [first]
      ensures Numbered()
      ensures forall t :: Binding(query, params, t) == if t == filter then Some(first) else None
    {
      var q := [Text(select), Text(filter), Placeholder(1)];
      assert Numbers([Text(select), Text(filter)]) == [] by {
        assert [Text(select), Text(filter)][..1] == [Text(select)];
        assert [Text(select)][..0] == [];
      }
      assert q[..2] == [Text(select), Text(filter)];
      assert q[1..] == [Text(filter), Placeholder(1)];
      assert q[1..][1..] == [Placeholder(1)];
      forall t ensures Binding(q, [first], t) == if t == filter then Some(first) else None {
        assert Binding(q, [first], t) == Binding(q[1..], [first], t);
        assert Binding(q[1..][1..], [first], t) == None;
        assert [first][0] == first;
      }
      query := q;
      params := [first];
    }

    /** `query += clause + '$' + (params.length + 1); params.push(value)`. */
    method Bind(clause: string, value: Scalar)
      requires Numbered()
      modifies this
      ensures query == old(query) + [Text(clause), Placeholder(|old(params)| + 1)]
      ensures params == old(params) + [value]
      ensures Numbered()
      ensures forall t :: Binding(query, params, t) == Extended(Binding(old(query), old(params), t), t == clause, value)
    {
      NumberedIsWithin(query, |params|);
      forall t ensures Binding(query + [Text(clause), Placeholder(|params| + 1)], params + [value], t)
        == Extended(Binding(query, params, t), t == clause, value)
      {
        BindingAppend(query, params, clause, value, t);
      }
      NumbersAppend(query, clause, |params| + 1);
      assert OneTo(|params|) + [|params| + 1] == OneTo(|params| + 1);
      query := query + [Text(clause), Placeholder(|params| + 1)];
      params := params + [value];
    }
  }
}

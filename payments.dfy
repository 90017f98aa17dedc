/** The payment records the report reads, their amounts, and the draft filter
    applied by the print action before anything is rendered. */
module Payments {

  /** One `account.payment` record, reduced to the fields the report reads.
      Text fields are opaque strings; `date` is already formatted as
      YYYY-MM-DD; `amount` is an integer number of cents. */
  datatype Payment = Payment(
    name: string,         // the order number, `name`
    date: string,         // `date`, already formatted
    journal: string,      // `journal_id.name`, shown as the account
    partner: string,      // `partner_id.name`, the grouping key
    amount: int,          // `amount`, in cents
    state: string,        // lifecycle state: "draft", "posted", ...
    partnerType: string)  // "supplier", "customer", ...

  const Draft := "draft"

  /** The arithmetic sum of the amounts of `ps`. */
  function Sum(ps: seq<Payment>): int
  {
    if ps == [] then 0 else ps[0].amount + Sum(ps[1..])
  }

  lemma {:induction false} SumAppend(a: seq<Payment>, b: seq<Payment>)
    ensures Sum(a + b) == Sum(a) + Sum(b)
  {
    if a == [] {
      assert a + b == b;
    } else {
      assert (a + b)[1..] == a[1..] + b;
      SumAppend(a[1..], b);
    }
  }

  /** Taking one payment out of a sequence takes its amount out of the sum. */
  lemma SumRemove(b: seq<Payment>, i: nat)
    requires i < |b|
    ensures Sum(b) == b[i].amount + Sum(b[..i] + b[i + 1..])
  {
    assert b == b[..i] + ([b[i]] + b[i + 1..]);
    SumAppend(b[..i], [b[i]] + b[i + 1..]);
    assert ([b[i]] + b[i + 1..])[1..] == b[i + 1..];
    SumAppend(b[..i], b[i + 1..]);
  }

  lemma RemoveCount(b: seq<Payment>, i: nat)
    requires i < |b|
    ensures multiset(b[..i] + b[i + 1..]) == multiset(b) - multiset{b[i]}
  {
    assert b == b[..i] + [b[i]] + b[i + 1..];
  }

  /** The sum of amounts depends only on which payments occur, and how often,
      not on their order. */
  lemma {:induction false} SumPermutation(a: seq<Payment>, b: seq<Payment>)
    requires multiset(a) == multiset(b)
    ensures Sum(a) == Sum(b)
  {
    if a != [] {
      var x := a[0];
      assert x in multiset(b);
      var i :| 0 <= i < |b| && b[i] == x;
      var rest := b[..i] + b[i + 1..];
      RemoveCount(b, i);
      RemoveCount(a, 0);
      assert a[..0] + a[1..] == a[1..];
      SumPermutation(a[1..], rest);
      SumRemove(b, i);
      assert Sum(a) == x.amount + Sum(a[1..]);
    } else {
      assert |b| == |multiset(b)| == 0;
    }
  }

  /** `self.filtered(lambda p: p.state != 'draft')`: the payments of `ps`
      that are not drafts, in their input order. */
  function Confirmed(ps: seq<Payment>): (r: seq<Payment>)
    ensures forall i :: 0 <= i < |r| ==> r[i].state != Draft
    ensures r == [] <==> forall i :: 0 <= i < |ps| ==> ps[i].state == Draft
  {
    if ps == [] then []
    else
      (if ps[0].state != Draft then [ps[0]] else []) + Confirmed(ps[1..])
  }

  /** Every non-draft payment is kept exactly as often as it occurs in the
      input, and no draft is kept. */
  lemma {:induction false} ConfirmedCount(ps: seq<Payment>)
    ensures forall p :: multiset(Confirmed(ps))[p] == if p.state != Draft then multiset(ps)[p] else 0
  {
    if ps != [] {
      assert ps == [ps[0]] + ps[1..];
      ConfirmedCount(ps[1..]);
    }
  }

  /** The filter is order-preserving: it distributes over concatenation, so
      the confirmed payments of a prefix come before those of what follows. */
  lemma {:induction false} ConfirmedAppend(a: seq<Payment>, b: seq<Payment>)
    ensures Confirmed(a + b) == Confirmed(a) + Confirmed(b)
  {
    if a == [] {
      assert a + b == b;
    } else {
      assert (a + b)[1..] == a[1..] + b;
      ConfirmedAppend(a[1..], b);
    }
  }
}

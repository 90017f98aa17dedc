/** Grouping of payments by partner name, as `generate_excel` does it with an
    insertion-ordered dictionary: partners keep the order in which they are
    first seen, payments keep their input order within each partner. */
module Grouping {
  import opened Payments

  /** One entry of the dictionary: a partner name and its payments. */
  datatype Group = Group(partner: string, payments: seq<Payment>)

  /** The distinct partner names of `ps` in first-seen order: the key order
      of the dictionary after the grouping loop has run over `ps`. */
  function Partners(ps: seq<Payment>): (keys: seq<string>)
    ensures forall i, j :: 0 <= i < j < |keys| ==> keys[i] != keys[j]
    ensures forall k :: k in keys <==> exists i :: 0 <= i < |ps| && ps[i].partner == k
  {
    if ps == [] then []
    else
      var seen := Partners(ps[..|ps| - 1]);
      var k := ps[|ps| - 1].partner;
      assert forall i :: 0 <= i < |ps| - 1 ==> ps[..|ps| - 1][i] == ps[i];
      if k in seen then seen else seen + [k]
  }

  /** The payments of `ps` whose partner is `k`, in input order: the list the
      dictionary holds under key `k`. */
  function PaymentsOf(ps: seq<Payment>, k: string): (r: seq<Payment>)
    ensures forall i :: 0 <= i < |r| ==> r[i].partner == k
    ensures r == [] <==> forall i :: 0 <= i < |ps| ==> ps[i].partner != k
  {
    if ps == [] then []
    else
      var last := ps[|ps| - 1];
      assert forall i :: 0 <= i < |ps| - 1 ==> ps[..|ps| - 1][i] == ps[i];
      PaymentsOf(ps[..|ps| - 1], k) + (if last.partner == k then [last] else [])
  }

  /** The groups for the keys `keys`, in the order of `keys`. */
  function GroupsOver(keys: seq<string>, ps: seq<Payment>): (gs: seq<Group>)
    ensures |gs| == |keys|
    ensures forall i :: 0 <= i < |gs| ==> gs[i] == Group(keys[i], PaymentsOf(ps, keys[i]))
  {
    if keys == [] then []
    else [Group(keys[0], PaymentsOf(ps, keys[0]))] + GroupsOver(keys[1..], ps)
  }

  /** `grouped_payments.items()` after the grouping loop. */
  function Groups(ps: seq<Payment>): seq<Group>
  {
    GroupsOver(Partners(ps), ps)
  }

  /** The payments of all groups, one group after the other. */
  function Flatten(gs: seq<Group>): seq<Payment>
  {
    if gs == [] then [] else gs[0].payments + Flatten(gs[1..])
  }

  /** The sum of the per-group totals. */
  function SumOfTotals(gs: seq<Group>): int
  {
    if gs == [] then 0 else Sum(gs[0].payments) + SumOfTotals(gs[1..])
  }

  /** The grouping loop (lines 53-57). The dictionary is modelled by its key
      order `order` and its contents `grouped`. */
  method GroupByPartner(ps: seq<Payment>) returns (order: seq<string>, grouped: map<string, seq<Payment>>)
    ensures order == Partners(ps)
    ensures forall k :: k in grouped <==> k in order
    ensures forall k :: k in grouped ==> grouped[k] == PaymentsOf(ps, k)
  {
    order, grouped := [], map[];
    for i := 0 to |ps|
      invariant order == Partners(ps[..i])
      invariant forall k :: k in grouped <==> k in order
      invariant forall k :: k in grouped ==> grouped[k] == PaymentsOf(ps[..i], k)
    {
      var name := ps[i].partner;
      assert ps[..i + 1][..i] == ps[..i];
      if name !in grouped {
        order := order + [name];
        grouped := grouped[name := []];
      }
      grouped := grouped[name := grouped[name] + [ps[i]]];
    }
    assert ps[..|ps|] == ps;
  }

  /** Each list holds every payment of its partner exactly as often as the
      input does, and nothing else. */
  lemma {:induction false} PaymentsOfCount(ps: seq<Payment>, k: string)
    ensures forall p :: multiset(PaymentsOf(ps, k))[p] == if p.partner == k then multiset(ps)[p] else 0
  {
    if ps != [] {
      var last := ps[|ps| - 1];
      assert ps == ps[..|ps| - 1] + [last];
      PaymentsOfCount(ps[..|ps| - 1], k);
    }
  }

  /** Grouping is stable: the list of a partner for `a + b` is its list for
      `a` followed by its list for `b`. */
  lemma {:induction false} PaymentsOfAppend(a: seq<Payment>, b: seq<Payment>, k: string)
    ensures PaymentsOf(a + b, k) == PaymentsOf(a, k) + PaymentsOf(b, k)
  {
    if b == [] {
      assert a + b == a;
    } else {
      var last := b[|b| - 1];
      assert (a + b)[..|a + b| - 1] == a + b[..|b| - 1];
      PaymentsOfAppend(a, b[..|b| - 1], k);
    }
  }

  /** The flattened groups over distinct keys hold exactly the payments whose
      partner is one of the keys. */
  lemma {:induction false} FlattenCount(keys: seq<string>, ps: seq<Payment>)
    requires forall i, j :: 0 <= i < j < |keys| ==> keys[i] != keys[j]
    ensures forall p :: multiset(Flatten(GroupsOver(keys, ps)))[p] == if p.partner in keys then multiset(ps)[p] else 0
  {
    if keys != [] {
      var gs := GroupsOver(keys, ps);
      assert gs[1..] == GroupsOver(keys[1..], ps);
      PaymentsOfCount(ps, keys[0]);
      FlattenCount(keys[1..], ps);
      assert forall k :: k in keys <==> k == keys[0] || k in keys[1..];
      assert keys[0] !in keys[1..];
    }
  }

  /** Grouping is a partition: the groups, one after the other, are a
      permutation of the input. */
  lemma GroupingIsPartition(ps: seq<Payment>)
    ensures multiset(Flatten(Groups(ps))) == multiset(ps)
  {
    var keys := Partners(ps);
    FlattenCount(keys, ps);
    forall p | p in multiset(ps)
      ensures p.partner in keys
    {
      var i :| 0 <= i < |ps| && ps[i] == p;
    }
  }

  /** Every input payment lands in the one group keyed by its partner, and in
      no other group. */
  lemma PaymentInOneGroup(ps: seq<Payment>, i: nat)
    requires i < |ps|
    ensures exists j :: 0 <= j < |Groups(ps)| && Groups(ps)[j].partner == ps[i].partner
    ensures forall j :: 0 <= j < |Groups(ps)| ==>
              (ps[i] in Groups(ps)[j].payments <==> Groups(ps)[j].partner == ps[i].partner)
  {
    var gs := Groups(ps);
    var keys := Partners(ps);
    assert ps[i].partner in keys;
    forall j | 0 <= j < |gs|
      ensures ps[i] in gs[j].payments <==> gs[j].partner == ps[i].partner
    {
      PaymentsOfCount(ps, keys[j]);
      assert multiset(ps)[ps[i]] > 0;
      assert ps[i] in gs[j].payments <==> multiset(gs[j].payments)[ps[i]] > 0;
    }
  }

  /** Partners appear in first-seen order: for two partners listed in that
      order, every payment of the later one is preceded by a payment of the
      earlier one. */
  lemma {:induction false} PartnersFirstSeen(ps: seq<Payment>, i: nat, j: nat, a: nat)
    requires i < j < |Partners(ps)| && a < |ps| && ps[a].partner == Partners(ps)[j]
    ensures exists b :: 0 <= b < a && ps[b].partner == Partners(ps)[i]
  {
    var init := ps[..|ps| - 1];
    var seen := Partners(init);
    var keys := Partners(ps);
    var k := ps[|ps| - 1].partner;
    assert keys == if k in seen then seen else seen + [k];
    assert i < |seen| && keys[i] == seen[i];
    if a < |init| {
      assert init[a] == ps[a];
      assert init[a].partner in seen;
      assert j < |seen| && keys[j] == seen[j];
      PartnersFirstSeen(init, i, j, a);
      var b :| 0 <= b < a && init[b].partner == seen[i];
      assert ps[b] == init[b];
    } else {
      assert seen[i] in seen;
      var b :| 0 <= b < |init| && init[b].partner == seen[i];
      assert ps[b] == init[b];
    }
  }

  /** The per-group totals add up to the total of all payments. */
  lemma TotalsConserve(ps: seq<Payment>)
    ensures SumOfTotals(Groups(ps)) == Sum(ps)
  {
    GroupingIsPartition(ps);
    SumPermutation(Flatten(Groups(ps)), ps);
    FlattenSum(Groups(ps));
  }

  lemma {:induction false} FlattenSum(gs: seq<Group>)
    ensures Sum(Flatten(gs)) == SumOfTotals(gs)
  {
    if gs != [] {
      SumAppend(gs[0].payments, Flatten(gs[1..]));
      FlattenSum(gs[1..]);
    }
  }
}

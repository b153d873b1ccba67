/**
 * The search test both order screens apply (src/screens/StaffOrdersScreen.js
 * and src/screens/OrdersScreen.js): an order matches a term when its email,
 * name or phone includes the term, compared in lower case.
 */
module OrderSearch {
  import opened Seqs
  import opened Text
  import opened Orders

  predicate Matches(order: Order, term: string)
  {
    var t := Lower(term);
    Includes(Lower(order.userEmail), t)
    || Includes(Lower(order.userName), t)
    || Includes(Lower(order.userPhone), t)
  }

  function MatchesTerm(term: string): Order -> bool
  {
    (o: Order) => Matches(o, term)
  }

  /** The orders that match the term, in their original order. */
  function Search(orders: seq<Order>, term: string): seq<Order>
  {
    Filter(orders, MatchesTerm(term))
  }

  /** The match test is a case-insensitive substring test on email, name or phone. */
  lemma MatchesIff(order: Order, term: string)
    ensures Matches(order, term) <==>
      (exists i: nat :: OccursAt(Lower(order.userEmail), Lower(term), i))
      || (exists i: nat :: OccursAt(Lower(order.userName), Lower(term), i))
      || (exists i: nat :: OccursAt(Lower(order.userPhone), Lower(term), i))
  {
    IncludesIff(Lower(order.userEmail), Lower(term));
    IncludesIff(Lower(order.userName), Lower(term));
    IncludesIff(Lower(order.userPhone), Lower(term));
    assert Matches(order, term) == (Includes(Lower(order.userEmail), Lower(term))
      || Includes(Lower(order.userName), Lower(term))
      || Includes(Lower(order.userPhone), Lower(term)));
  }

  /** Lower-casing is idempotent. */
  lemma LowerIdempotent(s: string)
    ensures Lower(Lower(s)) == Lower(s)
  {
  }

  /** Letter case in the term does not matter. */
  lemma MatchesIgnoresTermCase(order: Order, term: string)
    ensures Matches(order, term) == Matches(order, Lower(term))
  {
    LowerIdempotent(term);
  }

  /** A search keeps exactly the matching orders, in their original order. */
  lemma SearchKeepsExactlyMatches(orders: seq<Order>, term: string)
    ensures forall o :: o in Search(orders, term) <==> o in orders && Matches(o, term)
    ensures IsSubsequence(Search(orders, term), orders)
    ensures forall o :: multiset(Search(orders, term))[o] == if Matches(o, term) then multiset(orders)[o] else 0
  {
    FilterMembership(orders, MatchesTerm(term));
    FilterCount(orders, MatchesTerm(term));
    FilterIsSubsequence(orders, MatchesTerm(term));
  }

  /** The empty term matches every order, so searching for it returns the list unchanged. */
  lemma SearchEmptyTermKeepsAll(orders: seq<Order>)
    ensures Search(orders, "") == orders
  {
    forall o | o in orders ensures MatchesTerm("")(o) {
      IncludesEmpty(Lower(o.userEmail));
    }
    FilterKeepsAll(orders, MatchesTerm(""));
  }
}

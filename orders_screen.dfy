/**
 * The state of src/screens/OrdersScreen.js: the user's own orders as
 * fetched, narrowed by successive searches. Its search filters the list it
 * currently shows, not the fetched one, so searches only ever narrow until
 * the next fetch. The fetched server list is an input.
 */
module OrdersScreen {
  import opened Wrappers
  import opened Seqs
  import opened Orders
  import opened OrderSearch

  function OwnedBy(email: string, name: string): Order -> bool
  {
    (o: Order) => o.userEmail == email && o.userName == name
  }

  /** The filter of `fetchOrders`: the orders whose email and name both equal the profile's. */
  function ForUser(data: seq<Order>, email: string, name: string): seq<Order>
  {
    Filter(data, OwnedBy(email, name))
  }

  /** The fetched list keeps exactly the user's orders, in server order. */
  lemma ForUserKeepsExactlyOwn(data: seq<Order>, email: string, name: string)
    ensures forall o :: o in ForUser(data, email, name) <==> o in data && o.userEmail == email && o.userName == name
    ensures IsSubsequence(ForUser(data, email, name), data)
    ensures forall o :: multiset(ForUser(data, email, name))[o] == (if o.userEmail == email && o.userName == name then multiset(data)[o] else 0)
  {
    FilterMembership(data, OwnedBy(email, name));
    FilterCount(data, OwnedBy(email, name));
    FilterIsSubsequence(data, OwnedBy(email, name));
  }

  /** The displayed list after the searches `terms`, in order, starting from `shown`. */
  function Narrowed(shown: seq<Order>, terms: seq<string>): seq<Order>
    decreases |terms|
  {
    if terms == [] then shown else Narrowed(Search(shown, terms[0]), terms[1..])
  }

  predicate MatchesAll(order: Order, terms: seq<string>)
  {
    forall t :: t in terms ==> Matches(order, t)
  }

  function MatchesAllTerms(terms: seq<string>): Order -> bool
  {
    (o: Order) => MatchesAll(o, terms)
  }

  /** Successive searches are one filter by all their terms at once. */
  lemma {:induction false} NarrowedIsFilter(shown: seq<Order>, terms: seq<string>)
    ensures Narrowed(shown, terms) == Filter(shown, MatchesAllTerms(terms))
    decreases |terms|
  {
    if terms == [] {
      FilterKeepsAll(shown, MatchesAllTerms(terms));
    } else {
      NarrowedIsFilter(Search(shown, terms[0]), terms[1..]);
      forall o ensures MatchesAllTerms(terms)(o) == (MatchesTerm(terms[0])(o) && MatchesAllTerms(terms[1..])(o)) {
        assert terms == [terms[0]] + terms[1..];
      }
      FilterFilter(shown, MatchesTerm(terms[0]), MatchesAllTerms(terms[1..]), MatchesAllTerms(terms));
    }
  }

  /** One more search on the displayed list. */
  lemma {:induction false} NarrowedSnoc(shown: seq<Order>, terms: seq<string>, t: string)
    ensures Narrowed(shown, terms + [t]) == Search(Narrowed(shown, terms), t)
    decreases |terms|
  {
    if terms != [] {
      assert (terms + [t])[1..] == terms[1..] + [t];
      NarrowedSnoc(Search(shown, terms[0]), terms[1..], t);
    }
  }

  /**
   * Each search result is a subsequence of the list displayed before it, and
   * an order dropped by an earlier search stays dropped through any later
   * searches: it can only come back with a fetch.
   */
  lemma SearchesOnlyNarrow(shown: seq<Order>, terms: seq<string>, later: seq<string>)
    ensures forall t :: IsSubsequence(Narrowed(shown, terms + [t]), Narrowed(shown, terms))
    ensures forall o :: o in Narrowed(shown, terms + later) ==> o in Narrowed(shown, terms)
  {
    forall t ensures IsSubsequence(Narrowed(shown, terms + [t]), Narrowed(shown, terms)) {
      NarrowedSnoc(shown, terms, t);
      FilterIsSubsequence(Narrowed(shown, terms), MatchesTerm(t));
    }
    NarrowedIsFilter(shown, terms);
    NarrowedIsFilter(shown, terms + later);
    FilterMembership(shown, MatchesAllTerms(terms));
    FilterMembership(shown, MatchesAllTerms(terms + later));
    forall o | o in Narrowed(shown, terms + later) ensures o in Narrowed(shown, terms) {
      assert MatchesAll(o, terms + later);
      forall t | t in terms ensures Matches(o, t) {
        assert t in terms + later;
      }
    }
  }

  class Screen {
    var filteredOrders: seq<Order>
    var searchTerm: string
    const email: string
    const name: string

    /** The profile fields default to the empty string when missing or empty. */
    constructor (profile: Profile)
      ensures filteredOrders == [] && searchTerm == ""
      ensures email == OrDefault(profile.email, "") && name == OrDefault(profile.name, "")
    {
      filteredOrders, searchTerm := [], "";
      email := OrDefault(profile.email, "");
      name := OrDefault(profile.name, "");
    }

    /** `fetchOrders`: the displayed list becomes the user's orders; a failed fetch changes nothing. */
    method FetchOrders(reply: Option<seq<Order>>)
      modifies this
      ensures reply.Some? ==> filteredOrders == ForUser(reply.value, email, name)
      ensures reply.None? ==> filteredOrders == old(filteredOrders)
      ensures searchTerm == old(searchTerm)
    {
      if reply.Some? {
        filteredOrders := ForUser(reply.value, email, name);
      }
    }

    /** `handleSearch`: filter what is displayed now; an empty term changes nothing. */
    method HandleSearch(text: string)
      modifies this
      ensures searchTerm == text
      ensures filteredOrders == Search(old(filteredOrders), text)
      ensures IsSubsequence(filteredOrders, old(filteredOrders))
      ensures text == "" ==> filteredOrders == old(filteredOrders)
    {
      searchTerm := text;
      SearchKeepsExactlyMatches(filteredOrders, text);
      SearchEmptyTermKeepsAll(filteredOrders);
      filteredOrders := Search(filteredOrders, text);
    }
  }
}

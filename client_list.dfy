/** The client list's search filter. */
module ClientList {
  import opened Schema
  import opened Text
  import opened Sequences

  /**
   * The filter predicate: an empty (lowered) query keeps every client;
   * otherwise the lowered query must occur in the lowered name, in the
   * phone as stored (not lowered), or in the lowered address.
   */
  predicate Matches(c: Client, searchQuery: string) {
    var query := ToLower(searchQuery);
    query == ""
    || Includes(ToLower(c.name), query)
    || Includes(c.phone, query)
    || Includes(ToLower(c.address), query)
  }

  /** filteredClients: the clients that match, in their original order. */
  function FilterClients(clients: seq<Client>, searchQuery: string): (r: seq<Client>)
    ensures IsSubsequence(r, clients)
    ensures forall c :: c in r <==> c in clients && Matches(c, searchQuery)
    ensures forall c :: multiset(r)[c] == if Matches(c, searchQuery) then multiset(clients)[c] else 0
    ensures searchQuery == "" ==> r == clients
    decreases |clients|
  {
    if clients == [] then []
    else
      var rest := FilterClients(clients[1..], searchQuery);
      SubsequenceCons(clients[0], rest, clients[1..]);
      assert [clients[0]] + clients[1..] == clients;
      assert forall c :: c in clients <==> c == clients[0] || c in clients[1..];
      assert multiset(clients) == multiset{clients[0]} + multiset(clients[1..]);
      if Matches(clients[0], searchQuery) then [clients[0]] + rest else rest
  }

  /** Matching a longer query implies matching the query it extends. */
  lemma MatchesNarrows(c: Client, query: string, more: string)
    requires Matches(c, query + more)
    ensures Matches(c, query)
  {
    var q := ToLower(query);
    if q != "" {
      ToLowerConcat(query, more);
      var m := ToLower(more);
      if Includes(ToLower(c.name), q + m) {
        IncludesPrefix(ToLower(c.name), q, m);
      } else if Includes(c.phone, q + m) {
        IncludesPrefix(c.phone, q, m);
      } else {
        IncludesPrefix(ToLower(c.address), q, m);
      }
    }
  }

  /** Typing more characters into the search box never brings a client back. */
  lemma {:induction false} FilterClientsNarrows(clients: seq<Client>, query: string, more: string)
    ensures IsSubsequence(FilterClients(clients, query + more), FilterClients(clients, query))
    decreases |clients|
  {
    if clients != [] {
      FilterClientsNarrows(clients[1..], query, more);
      if Matches(clients[0], query + more) {
        MatchesNarrows(clients[0], query, more);
      }
      SubsequenceCons(clients[0], FilterClients(clients[1..], query + more), FilterClients(clients[1..], query));
    }
  }

  /** The case of the query does not matter: queries that lower to the same text select the same clients. */
  lemma {:induction false} QueryCaseIgnored(clients: seq<Client>, q1: string, q2: string)
    requires ToLower(q1) == ToLower(q2)
    ensures FilterClients(clients, q1) == FilterClients(clients, q2)
    decreases |clients|
  {
    if clients != [] {
      QueryCaseIgnored(clients[1..], q1, q2);
    }
  }

  /** Typing the query in capitals selects what typing it in lower case does. */
  lemma LoweredQuerySelectsSame(clients: seq<Client>, q: string)
    ensures FilterClients(clients, ToLower(q)) == FilterClients(clients, q)
  {
    ToLowerIdempotent(q);
    QueryCaseIgnored(clients, ToLower(q), q);
  }

  /**
   * The phone is matched as stored: a client whose phone reads "0800-FLOR"
   * (and whose name and address do not contain "flor") is not found by
   * "FLOR", which is lowered to "flor" before the comparison.
   */
  lemma PhoneIsMatchedAsStored(c: Client)
    requires c.phone == "0800-FLOR" && c.name == "Ana" && c.address == "Rua 1"
    ensures !Matches(c, "FLOR")
  {
    var query := ToLower("FLOR");
    assert query == "flor";
    FirstCharAbsent(ToLower(c.name), query);
    FirstCharAbsent(c.phone, query);
    FirstCharAbsent(ToLower(c.address), query);
  }

  /** The name is matched whatever its case: a client named "Flor" is found by "FLOR". */
  lemma NameIsMatchedInAnyCase(c: Client)
    requires c.name == "Flor"
    ensures Matches(c, "FLOR")
  {
    assert ToLower(c.name) == ToLower("FLOR");
  }
}

/** A payload's quotes by identifier and platform. */
module Quotes {
  import opened Domain

  datatype QuoteKey = QuoteKey(externalId: string, platform: Platform)

  function KeyOf(q: Quote): QuoteKey { QuoteKey(q.externalId, q.platform) }

  /** The last quote the payload states for a key. */
  function LastQuote(quotes: seq<Quote>, key: QuoteKey): (r: Option<Quote>)
    ensures r.None? <==> forall i :: 0 <= i < |quotes| ==> KeyOf(quotes[i]) != key
    ensures r.Some? ==>
              exists i :: 0 <= i < |quotes| && quotes[i] == r.value && KeyOf(quotes[i]) == key
                          && forall j :: i < j < |quotes| ==> KeyOf(quotes[j]) != key
  {
    if quotes == [] then None
    else if KeyOf(quotes[|quotes| - 1]) == key then Some(quotes[|quotes| - 1])
    else LastQuote(quotes[..|quotes| - 1], key)
  }

  /** Quote i differs in price or instant from the quote of the same key that most recently preceded it. */
  predicate Contradicted(quotes: seq<Quote>, i: nat)
    requires i < |quotes|
  {
    var before := LastQuote(quotes[..i], KeyOf(quotes[i]));
    before.Some? && (before.value.price != quotes[i].price || before.value.observedAt != quotes[i].observedAt)
  }

  function Contradictions(quotes: seq<Quote>): set<nat> {
    set i: nat | i < |quotes| && Contradicted(quotes, i)
  }

  lemma ContradictionsStep(quotes: seq<Quote>, i: nat)
    requires i < |quotes|
    ensures Contradictions(quotes[..i + 1])
            == Contradictions(quotes[..i]) + (if Contradicted(quotes, i) then {i} else {})
    ensures i !in Contradictions(quotes[..i])
  {
    forall j: nat | j <= i
      ensures quotes[..i + 1][..j] == quotes[..j]
      ensures j < i ==> quotes[..i][..j] == quotes[..j]
    {
    }
  }

  /** The index holds, for every key the payload states, its last quote, and nothing else. */
  ghost predicate Indexes(byKey: map<QuoteKey, Quote>, quotes: seq<Quote>) {
    forall key :: LastQuote(quotes, key) == if key in byKey then Some(byKey[key]) else None
  }

  lemma IndexStep(byKey: map<QuoteKey, Quote>, quotes: seq<Quote>, i: nat)
    requires i < |quotes| && Indexes(byKey, quotes[..i])
    ensures Indexes(byKey[KeyOf(quotes[i]) := quotes[i]], quotes[..i + 1])
  {
    var longer := quotes[..i + 1];
    assert longer[..i] == quotes[..i] && longer[|longer| - 1] == quotes[i];
    var byKey' := byKey[KeyOf(quotes[i]) := quotes[i]];
    forall key
      ensures LastQuote(longer, key) == if key in byKey' then Some(byKey'[key]) else None
    {
      assert LastQuote(longer, key)
          == if KeyOf(quotes[i]) == key then Some(quotes[i]) else LastQuote(quotes[..i], key);
    }
  }

  /** Builds the index in one pass; the last quote wins and every overwritten disagreement is counted. */
  method IndexQuotes(quotes: seq<Quote>) returns (byKey: map<QuoteKey, Quote>, contradicted: nat)
    ensures Indexes(byKey, quotes)
    ensures contradicted == |Contradictions(quotes)|
  {
    byKey, contradicted := map[], 0;
    for i := 0 to |quotes|
      invariant Indexes(byKey, quotes[..i])
      invariant contradicted == |Contradictions(quotes[..i])|
    {
      var quote := quotes[i];
      var key := KeyOf(quote);
      ContradictionsStep(quotes, i);
      IndexStep(byKey, quotes, i);
      assert LastQuote(quotes[..i], key) == if key in byKey then Some(byKey[key]) else None;
      if key in byKey && (byKey[key].price != quote.price || byKey[key].observedAt != quote.observedAt) {
        contradicted := contradicted + 1;
      }
      byKey := byKey[key := quote];
    }
    assert quotes[..|quotes|] == quotes;
  }

  // ---------------------------------------------------------------------------
  // Never by position
  // ---------------------------------------------------------------------------

  /** The quotes of one key, in payload order. */
  function ForKey(quotes: seq<Quote>, key: QuoteKey): seq<Quote> {
    if quotes == [] then []
    else ForKey(quotes[..|quotes| - 1], key)
         + (if KeyOf(quotes[|quotes| - 1]) == key then [quotes[|quotes| - 1]] else [])
  }

  lemma {:induction false} LastOfForKey(quotes: seq<Quote>, key: QuoteKey)
    ensures LastQuote(quotes, key)
            == var own := ForKey(quotes, key); if own == [] then None else Some(own[|own| - 1])
  {
    if quotes != [] {
      LastOfForKey(quotes[..|quotes| - 1], key);
    }
  }

  /** Quotes of other keys may be added, dropped or moved around a key without touching what it reads. */
  lemma OtherKeysDoNotMatter(quotes: seq<Quote>, others: seq<Quote>, key: QuoteKey)
    requires ForKey(quotes, key) == ForKey(others, key)
    ensures LastQuote(quotes, key) == LastQuote(others, key)
  {
    LastOfForKey(quotes, key);
    LastOfForKey(others, key);
  }

  predicate DistinctKeys(quotes: seq<Quote>) {
    forall i, j :: 0 <= i < j < |quotes| ==> KeyOf(quotes[i]) != KeyOf(quotes[j])
  }

  /** A payload that states each key once reads the same in any order, and contradicts nothing. */
  lemma OrderDoesNotMatter(quotes: seq<Quote>, permuted: seq<Quote>)
    requires DistinctKeys(quotes) && multiset(quotes) == multiset(permuted)
    ensures forall key :: LastQuote(quotes, key) == LastQuote(permuted, key)
    ensures Contradictions(quotes) == {}
  {
    forall key
      ensures LastQuote(quotes, key) == LastQuote(permuted, key)
    {
      var a, b := LastQuote(quotes, key), LastQuote(permuted, key);
      forall q | q in permuted
        ensures q in quotes
      {
        assert q in multiset(permuted);
      }
      if a.Some? {
        assert a.value in multiset(quotes);
        assert a.value in permuted;
      }
      if b.Some? {
        assert b.value in permuted;
        assert b.value in quotes;
      }
    }
  }
}

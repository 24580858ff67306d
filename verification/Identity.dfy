/** Rule 1 over whole histories: what a named card's name, and its payloads', can ever become. */
module Identity {
  import opened Domain
  import opened Quotes
  import opened ObjectKeys
  import opened Ledger
  import opened Reading
  import opened Machine
  import opened Bookkeeping
  import opened Provenance

  function FoldedName(c: Setting, t: Tables, a: AssetId): string
    requires a in t.assets
  {
    c.fold(t.assets[a].name)
  }

  /** Every asset stays, and one that has a name keeps it, up to folding. */
  predicate Anchored(c: Setting, t: Tables, t': Tables) {
    forall a :: a in t.assets ==>
      a in t'.assets && (FoldedName(c, t, a) != "" ==> FoldedName(c, t', a) == FoldedName(c, t, a))
  }

  lemma AnchoredByOneAction(c: Setting, s: State, a: Action)
    requires Enabled(c, s, a)
    ensures Anchored(c, s.t, Next(c, s, a).t)
  {
    if a.Store? {
      StorePollsFrame(s.t, BatchPolls(c, s, s.process.stage.key, a.targets), a.at, a.now, s.process.run);
    }
  }

  /** Through every write path, for ever, a folded name that is not empty does not change. */
  lemma {:induction false} IdentityAnchor(c: Setting, s: State, actions: seq<Action>)
    requires Legal(c, s, actions)
    ensures Anchored(c, s.t, After(c, s, actions).t)
  {
    if actions != [] {
      var before := actions[..|actions| - 1];
      IdentityAnchor(c, s, before);
      AnchoredByOneAction(c, After(c, s, before), actions[|actions| - 1]);
    }
  }

  /** The payload vouches for the row, and gives its card no name or one that folds to the name given. */
  predicate VouchesUnder(c: Setting, t: Tables, archive: map<ObjectKey, Envelope>, key: ObjectKey, startedAt: Instant,
                         o: Observation, folded: string) {
    && Vouches(c, t, archive, key, startedAt, o)
    && var q := LastQuote(QuotesAt(c, archive, key).value, TargetKey(TargetOf(t, o.key, o.detail.sourceRef))).value;
    q.name.Some? ==> c.fold(q.name.value) == folded
  }

  /**
   * Once a card is named, any row later written for it comes from a payload that gives
   * no name or one that folds to the card's: a payload recorded on the row's run, or for
   * a replay on the run it replaces, read at that run's own start.
   */
  lemma LaterRowsCarryTheName(c: Setting, s: State, actions: seq<Action>, a: Action, k: ObsKey)
    requires Sound(c, s) && Legal(c, s, actions) && Enabled(c, After(c, s, actions), a)
    requires k.asset in s.t.assets && FoldedName(c, s.t, k.asset) != ""
    requires var t, t' := After(c, s, actions).t, Next(c, After(c, s, actions), a).t;
             k in t'.observations && (k in t.observations ==> t'.observations[k] != t.observations[k])
    ensures var s', row := After(c, s, actions), Next(c, After(c, s, actions), a).t.observations[k];
            && var r := Behind(s', row.run);
            && r in s'.t.runs
            && exists key :: key in s'.t.runs[r].priceKeys
                             && VouchesUnder(c, s'.t, s'.archive, key, s'.t.runs[r].startedAt, Observation(k, row.detail),
                                             FoldedName(c, s.t, k.asset))
  {
    var s' := After(c, s, actions);
    SoundAlways(c, s, actions);
    IdentityAnchor(c, s, actions);
    NewRowsAreTraced(c, s', a, k);
    var row := Next(c, s', a).t.observations[k];
    var r := Behind(s', row.run);
    var key :| key in s'.t.runs[r].priceKeys && key.kind.Prices?
               && Vouches(c, s'.t, s'.archive, key, s'.t.runs[r].startedAt, Observation(k, row.detail))
               && NameHolds(c, TargetOf(s'.t, k, row.detail.sourceRef), QuotesAt(c, s'.archive, key).value);
    assert VouchesUnder(c, s'.t, s'.archive, key, s'.t.runs[r].startedAt, Observation(k, row.detail),
                        FoldedName(c, s.t, k.asset));
  }
}

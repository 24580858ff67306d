/** Where an archived payload lives, and why two payloads never share a place. */
module ObjectKeys {
  import opened Domain
  import opened Text

  datatype Kind = Prices | Metadata | AssetList

  /** What the text of a key is built from. The source and the date follow from the run. */
  datatype ObjectKey = ObjectKey(kind: Kind, run: RunId, batch: nat)

  function Decimal(n: nat): (text: string)
    ensures text != [] && AllDigits(text)
  {
    if n < 10 then [Digit(n)] else Decimal(n / 10) + [Digit(n % 10)]
  }

  lemma {:induction false} DecimalRoundTrip(n: nat)
    ensures DecimalValue(Decimal(n)) == n
  {
    if n >= 10 {
      DecimalRoundTrip(n / 10);
      assert Decimal(n)[..|Decimal(n)| - 1] == Decimal(n / 10);
    } else {
      assert DecimalValue([]) == 0;
      assert Decimal(n)[..0] == [];
    }
  }

  function Prefix(source: string, kind: Kind): string {
    match kind
    case Prices => "raw/" + source
    case Metadata => "raw/" + source + "/metadata"
    case AssetList => "raw/" + source + "/assets"
  }

  /** `date` is the "/YYYY/MM/DD/" of the run's start. */
  function KeyText(source: string, date: string, key: ObjectKey): string {
    Prefix(source, key.kind) + date + key.run + "-" + Decimal(key.batch) + ".json.zst"
  }

  /** A digit-only tail behind the last hyphen is determined by the whole text. */
  lemma TailIsDetermined(a: string, tail: string, b: string, other: string)
    requires a + "-" + tail == b + "-" + other
    requires AllDigits(tail)
    requires AllDigits(other)
    ensures a == b && tail == other
  {
    var whole, also := a + "-" + tail, b + "-" + other;
    forall i | |a| < i < |whole|
      ensures whole[i] != '-'
    {
      assert whole[i] == tail[i - |a| - 1];
    }
    forall i | |b| < i < |also|
      ensures also[i] != '-'
    {
      assert also[i] == other[i - |b| - 1];
    }
    assert whole[|a|] == '-' && also[|b|] == '-';
    assert whole[..|a|] == a && also[..|b|] == b;
    assert whole[|a| + 1..] == tail && also[|b| + 1..] == other;
  }

  lemma SuffixCancels(a: string, b: string, suffix: string)
    requires a + suffix == b + suffix
    ensures a == b
  {
    assert (a + suffix)[..|a|] == a && (b + suffix)[..|b|] == b;
  }

  lemma EqualTailsSplit(a: string, tail: string, b: string, other: string)
    requires a + tail == b + other && |tail| == |other|
    ensures a == b && tail == other
  {
    assert (a + tail)[..|a|] == a && (b + other)[..|b|] == b;
    assert (a + tail)[|a|..] == tail && (b + other)[|b|..] == other;
  }

  /**
   * Two payloads filed under the same text came from the same run and batch,
   * whatever their sources and dates; and from one source on one date, from the same kind.
   */
  lemma KeyTextIsInjective(source: string, date: string, key: ObjectKey, source': string, date': string, key': ObjectKey)
    requires KeyText(source, date, key) == KeyText(source', date', key')
    ensures key.run == key'.run && key.batch == key'.batch
    ensures source == source' && date == date' ==> key == key'
  {
    var head, head' := Prefix(source, key.kind) + date, Prefix(source', key'.kind) + date';
    SuffixCancels(head + key.run + "-" + Decimal(key.batch), head' + key'.run + "-" + Decimal(key'.batch), ".json.zst");
    TailIsDetermined(head + key.run, Decimal(key.batch), head' + key'.run, Decimal(key'.batch));
    DecimalRoundTrip(key.batch);
    DecimalRoundTrip(key'.batch);
    EqualTailsSplit(head, key.run, head', key'.run);
    if source == source' && date == date' {
      SuffixCancels(Prefix(source, key.kind), Prefix(source, key'.kind), date);
      KindIsDetermined(source, key.kind, key'.kind);
    }
  }

  lemma KindIsDetermined(source: string, kind: Kind, kind': Kind)
    requires Prefix(source, kind) == Prefix(source, kind')
    ensures kind == kind'
  {
    assert |Prefix(source, Prices)| == 4 + |source|;
    assert |Prefix(source, Metadata)| == 13 + |source|;
    assert |Prefix(source, AssetList)| == 11 + |source|;
  }
}

/**
 The budget counter exchange on the wire: per-replica partials inside the kaalm-budget-{provider}
 ConfigMap, how they are flattened and read back, and how a replica folds its peers.
 */
module Wire {
  import opened Totals
  import opened Decimal

  const CANONICAL_KEY := "_canonical"
  const RETIRED_KEY := "_retired"
  const PERIOD_FIELD := "period"
  const MARGIN_FIELD := "_marginExceeded"

  /** A ConfigMap value: a JSON object of string fields, or text `json.Unmarshal` rejects. */
  datatype Raw = Unreadable | Object(fields: map<string, string>)

  datatype Partial = Partial(period: string, spend: Spend, marginExceeded: bool)

  /** Underscore-prefixed fields are flags, never spend. */
  predicate IsFlag(field: string) { field != "" && field[0] == '_' }

  /** A namespace whose spend survives the flattened layout. */
  predicate Carried(ns: string) { ns != PERIOD_FIELD && !IsFlag(ns) }

  /** Only the name "period" and names that begin with an underscore are lost. */
  lemma CarriedIff(ns: string)
    ensures Carried(ns) <==> ns != "period" && !("_" <= ns)
  {
    assert "_" <= ns <==> ns != "" && ns[0] == "_"[0];
  }

  /** `MarshalJSON`: period and namespaces flattened into one object, namespaces written last. */
  function Flattened(period: string, amounts: map<string, string>, marginExceeded: bool): Raw {
    var fields := map[PERIOD_FIELD := period] + amounts;
    Object(if marginExceeded then fields[MARGIN_FIELD := "true"] else fields)
  }

  function Formatted(spend: Spend): map<string, string> {
    map ns | ns in spend :: FormatCents(spend[ns])
  }

  /** The entry a partial is published as. */
  function Encoded(p: Partial): Raw {
    Flattened(p.period, Formatted(p.spend), p.marginExceeded)
  }

  function SpendFields(fields: map<string, string>): Spend {
    map k | k in fields && Carried(k) && ParseCents(fields[k]).Some? :: ParseCents(fields[k]).value
  }

  /** What a ConfigMap value says; None when it is unreadable. */
  function Parsed(raw: Raw): Option<Partial> {
    match raw
    case Unreadable => None
    case Object(f) =>
      Some(Partial(if PERIOD_FIELD in f then f[PERIOD_FIELD] else "", SpendFields(f),
                   MARGIN_FIELD in f && f[MARGIN_FIELD] == "true"))
  }

  method ParseBudgetPartial(raw: Raw) returns (r: Option<Partial>)
    ensures r == Parsed(raw)
  {
    if raw == Unreadable {
      return None;
    }
    var period, spend: Spend, margin := "", map[], false;
    var todo := raw.fields.Keys;
    ghost var all := SpendFields(raw.fields);
    assert all - todo == map[];
    while todo != {}
      invariant todo <= raw.fields.Keys
      invariant period == if PERIOD_FIELD in raw.fields.Keys - todo then raw.fields[PERIOD_FIELD] else ""
      invariant spend == all - todo
      invariant margin <==> MARGIN_FIELD in raw.fields.Keys - todo && raw.fields[MARGIN_FIELD] == "true"
      decreases |todo|
    {
      var k :| k in todo;
      Visit(all, todo, k);
      todo := todo - {k};
      var v := raw.fields[k];
      if k == PERIOD_FIELD {
        period := v;
      } else if IsFlag(k) {
        if k == MARGIN_FIELD && v == "true" {
          margin := true;
        }
      } else {
        var f := ParseCents(v);
        if f.Some? {
          spend := spend[k := f.value];
        }
      }
    }
    assert all - todo == all;
    r := Some(Partial(period, spend, margin));
  }

  lemma EncodedSpend(p: Partial)
    ensures forall ns :: ns in SpendFields(Encoded(p).fields) <==> ns in p.spend && Carried(ns)
    ensures forall ns :: ns in SpendFields(Encoded(p).fields) ==> SpendFields(Encoded(p).fields)[ns] == p.spend[ns]
  {
    var f := Encoded(p).fields;
    forall ns | ns in f && Carried(ns)
      ensures ns in p.spend && ParseCents(f[ns]) == Some(p.spend[ns])
    {
      CentsRoundTrip(p.spend[ns]);
    }
  }

  lemma EncodedHeader(p: Partial)
    requires forall ns :: ns in p.spend ==> Carried(ns)
    ensures PERIOD_FIELD in Encoded(p).fields && Encoded(p).fields[PERIOD_FIELD] == p.period
    ensures p.marginExceeded <==> MARGIN_FIELD in Encoded(p).fields && Encoded(p).fields[MARGIN_FIELD] == "true"
  {
    assert !Carried(PERIOD_FIELD) && !Carried(MARGIN_FIELD);
  }

  /**
   The layout is lossless exactly when no namespace is called "period" and none starts with an
   underscore: such a namespace's spend is written and never read back.
   */
  lemma PartialRoundTrip(p: Partial)
    ensures Parsed(Encoded(p)) == Some(p) <==> forall ns :: ns in p.spend ==> Carried(ns)
  {
    hide SpendFields, Carried, PERIOD_FIELD, MARGIN_FIELD;
    EncodedSpend(p);
    var f := Encoded(p).fields;
    hide Encoded;
    if ns :| ns in p.spend && !Carried(ns) {
      assert ns !in SpendFields(f);
    } else {
      EncodedHeader(p);
      assert SpendFields(f) == p.spend;
    }
  }

  /** Spend that came off the wire goes back on it unchanged, so the reducer can always re-publish it. */
  lemma ParsedIsCarried(raw: Raw)
    ensures Parsed(raw).Some? ==> forall ns :: ns in Parsed(raw).value.spend ==> Carried(ns)
  {
  }

  predicate InPeriod(raw: Raw, period: string) {
    Parsed(raw).Some? && Parsed(raw).value.period == period
  }

  function SpendOf(raw: Raw): Spend {
    match Parsed(raw)
    case Some(p) => p.spend
    case None => map[]
  }

  /** The current-period contributions in a budget ConfigMap, `_canonical` excluded. */
  function PartsIn(data: map<string, Raw>, period: string): map<string, Spend> {
    map k | k in data && k != CANONICAL_KEY && InPeriod(data[k], period) :: SpendOf(data[k])
  }

  /** Publishing a current-period partial replaces one part; writing `_canonical` changes none. */
  lemma PartsInUpdate(data: map<string, Raw>, period: string, k: string, raw: Raw)
    ensures k != CANONICAL_KEY && InPeriod(raw, period) ==>
              PartsIn(data[k := raw], period) == PartsIn(data, period)[k := SpendOf(raw)]
    ensures k == CANONICAL_KEY ==> PartsIn(data[k := raw], period) == PartsIn(data, period)
  {
    hide Parsed, SpendOf, CANONICAL_KEY;
  }

  /** Everyone's current-period spend but one's own: what a replica adds to its live counters. */
  ghost function PeerView(data: map<string, Raw>, own: string, period: string): Spend {
    Merge(PartsIn(data, period) - {own})
  }

  method AddInto(dst: Spend, src: Spend) returns (r: Spend)
    ensures r == AddMaps(dst, src)
  {
    hide AddMaps;
    AddMapsEmpty(dst);
    r := dst;
    var todo := src.Keys;
    assert src - todo == map[];
    while todo != {}
      invariant todo <= src.Keys
      invariant r == AddMaps(dst, src - todo)
      decreases |todo|
    {
      var k :| k in todo;
      Visit(src, todo, k);
      AddMapsInsert(dst, src - todo, k, src[k]);
      todo := todo - {k};
      r := r[k := Get(r, k) + src[k]];
    }
    assert src - todo == src;
  }

  lemma PartAt(data: map<string, Raw>, own: string, period: string, k: string)
    requires k in data
    ensures
      var all := PartsIn(data, period) - {own};
      && (k in all <==> k != own && k != CANONICAL_KEY && InPeriod(data[k], period))
      && (k in all ==> all[k] == Parsed(data[k]).value.spend)
  {
  }

  method FoldPartials(data: map<string, Raw>, ownPodName: string, currentPeriod: string) returns (peers: Spend)
    ensures peers == PeerView(data, ownPodName, currentPeriod)
  {
    peers := map[];
    var todo := data.Keys;
    ghost var all := PartsIn(data, currentPeriod) - {ownPodName};
    assert all.Keys <= todo;
    MergeVisitedEnds(all, todo);
    hide Parsed, AddMaps, MergeVisited, PartsIn, CANONICAL_KEY;
    while todo != {}
      invariant todo <= data.Keys
      invariant peers == MergeVisited(all, todo)
      decreases |todo|
    {
      var key :| key in todo;
      PartAt(data, ownPodName, currentPeriod, key);
      MergeVisit(all, todo, key);
      todo := todo - {key};
      if key == ownPodName || key == CANONICAL_KEY {
        continue;
      }
      var parsed := ParseBudgetPartial(data[key]);
      if parsed == None || parsed.value.period != currentPeriod {
        continue;
      }
      peers := AddInto(peers, parsed.value.spend);
    }
    MergeVisitedEnds(all, todo);
  }

  /** Per namespace, the peer view is the plain total over the other keys. */
  lemma PeerViewColumn(data: map<string, Raw>, own: string, period: string, ns: string)
    ensures Get(PeerView(data, own, period), ns) == Total(Column(PartsIn(data, period) - {own}, ns))
  {
    MergeColumn(PartsIn(data, period) - {own}, ns);
  }
}

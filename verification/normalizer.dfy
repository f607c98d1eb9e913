/**
  The payload normalizer of the `/cotacao` handler: from the upstream document,
  already decoded into a generic JSON object, to one canonical `ExchangeRate`.
  The handler dispatches on what the `"USDBRL"` entry holds; afterwards an
  empty bid is replaced by `"0"`.

  Two things the normalizer depends on are passed in: the wall clock (`now`),
  and the result of the strict decode of the same bytes into the
  `CurrencyData` struct, which the handler only tries when the key is absent.
*/
module Normalizer {
  import opened Options
  import opened JsonValues
  import opened Rates

  /** The key the traded pair is published under. */
  const PairKey := "USDBRL"

  /** The shapes the handler tells apart under the pair key. */
  datatype Shape =
    | BareString(bid: string)
    | ObjectWithBid(fields: map<string, Json>, bid: string)
    | ObjectWithoutBid
    | OtherValue
    | KeyAbsent

  /** The `exists` test and the type switch on the pair entry. */
  function Classify(doc: map<string, Json>): (s: Shape)
    ensures s.KeyAbsent? <==> PairKey !in doc
    ensures s.BareString? <==> PairKey in doc && doc[PairKey].JString?
    ensures s.BareString? ==> doc[PairKey] == JString(s.bid)
    ensures s.ObjectWithBid? <==>
      PairKey in doc && doc[PairKey].JObject? && StringAt(doc[PairKey].fields, "bid").Some?
    ensures s.ObjectWithBid? ==>
      doc[PairKey] == JObject(s.fields) && StringAt(s.fields, "bid") == Some(s.bid)
    ensures s.ObjectWithoutBid? <==>
      PairKey in doc && doc[PairKey].JObject? && StringAt(doc[PairKey].fields, "bid").None?
    ensures s.OtherValue? <==>
      PairKey in doc && !doc[PairKey].JString? && !doc[PairKey].JObject?
  {
    if PairKey in doc then
      match doc[PairKey]
      case JString(v) => BareString(v)
      case JObject(obj) =>
        (match StringAt(obj, "bid")
         case Some(b) => ObjectWithBid(obj, b)
         case None => ObjectWithoutBid)
      case _ => OtherValue
    else
      KeyAbsent
  }

  /** The record the string branch builds: the string is the bid, everything
      else is a fixed default or the clock. */
  function FromBareString(bid: string, now: Clock): ExchangeRate {
    ExchangeRate(
      code := "USD",
      codein := "BRL",
      name := "Dollar/Real",
      high := "0",
      low := "0",
      varBid := "0",
      pctChange := "0",
      bid := bid,
      ask := "0",
      timestamp := now.unixSeconds,
      createDate := now.rfc3339)
  }

  /** The record the object branch builds: each field from the nested object
      when it holds a string there, its default otherwise. */
  function FromObject(obj: map<string, Json>, bid: string, now: Clock): ExchangeRate {
    ExchangeRate(
      code := StringOrDefault(obj, "code", "USD"),
      codein := StringOrDefault(obj, "codein", "BRL"),
      name := StringOrDefault(obj, "name", "Dollar/Real"),
      high := StringOrDefault(obj, "high", "0"),
      low := StringOrDefault(obj, "low", "0"),
      varBid := StringOrDefault(obj, "varBid", "0"),
      pctChange := StringOrDefault(obj, "pctChange", "0"),
      bid := bid,
      ask := StringOrDefault(obj, "ask", "0"),
      timestamp := StringOrDefault(obj, "timestamp", now.unixSeconds),
      createDate := StringOrDefault(obj, "create_date", now.rfc3339))
  }

  /** The record chosen by the dispatch, before the bid is patched. */
  function Dispatch(doc: map<string, Json>, strict: Option<ExchangeRate>, now: Clock): ExchangeRate {
    match Classify(doc)
    case BareString(v) => FromBareString(v, now)
    case ObjectWithBid(obj, b) => FromObject(obj, b, now)
    case ObjectWithoutBid => DefaultRate(now)
    case OtherValue => DefaultRate(now)
    case KeyAbsent => strict.GetOr(DefaultRate(now))
  }

  /** The bid rule of the final validation step: an empty bid becomes `"0"`. */
  function Patched(bid: string): string {
    if bid == "" then Zero else bid
  }

  /** The final validation step, applied to the whole record. */
  function PatchBid(r: ExchangeRate): (p: ExchangeRate)
    ensures p.bid != ""
    ensures r.bid != "" ==> p == r
    ensures forall t :: t in Tags && t != "bid" ==> Field(p, t) == Field(r, t)
  {
    r.(bid := Patched(r.bid))
  }

  /** The normalizer as a whole. Whatever the document, the bid it yields is
      never empty: a non-empty bid chosen by the dispatch is kept, and
      otherwise it is `"0"`. The values of the other fields, branch by branch,
      are stated by the lemmas below. */
  function Normalize(doc: map<string, Json>, strict: Option<ExchangeRate>, now: Clock): (r: ExchangeRate)
    ensures r.bid != ""
    ensures Dispatch(doc, strict, now).bid != "" ==> r.bid == Dispatch(doc, strict, now).bid
    ensures Dispatch(doc, strict, now).bid == "" ==> r.bid == "0"
  {
    PatchBid(Dispatch(doc, strict, now))
  }

  /** A bare string under the pair key is the bid; every other field is the
      default the server writes for it, the times coming from the clock. */
  lemma NormalizeBareString(doc: map<string, Json>, strict: Option<ExchangeRate>, now: Clock, s: string)
    requires PairKey in doc && doc[PairKey] == JString(s)
    ensures Normalize(doc, strict, now).bid == Patched(s)
    ensures Normalize(doc, strict, now) == DefaultRate(now).(bid := Patched(s))
    ensures forall t :: t in Tags && t != "bid" ==>
      Field(Normalize(doc, strict, now), t) == Field(DefaultRate(now), t)
  {
  }

  /** An object holding a string bid: the bid is taken (patched if empty), and
      every other field is the object's string under the same tag, or the
      field's default when the tag is missing or holds a non-string. */
  lemma NormalizeObjectWithBid(doc: map<string, Json>, strict: Option<ExchangeRate>, now: Clock,
                               obj: map<string, Json>, b: string)
    requires PairKey in doc && doc[PairKey] == JObject(obj)
    requires "bid" in obj && obj["bid"] == JString(b)
    ensures Normalize(doc, strict, now).bid == Patched(b)
    ensures forall t :: t in Tags && t != "bid" ==>
      Field(Normalize(doc, strict, now), t) ==
        Some(StringOrDefault(obj, t, Field(DefaultRate(now), t).value))
  {
    var r := FromObject(obj, b, now);
    assert Normalize(doc, strict, now) == PatchBid(r);
    forall t | t in Tags && t != "bid"
      ensures Field(r, t) == Some(StringOrDefault(obj, t, Field(DefaultRate(now), t).value))
    {
      FromObjectField(obj, b, now, t);
    }
  }

  /** One field of the object branch's record, tag by tag. */
  lemma FromObjectField(obj: map<string, Json>, b: string, now: Clock, t: string)
    requires t in Tags && t != "bid"
    ensures Field(FromObject(obj, b, now), t) == Some(StringOrDefault(obj, t, Field(DefaultRate(now), t).value))
  {
    var i :| 0 <= i < |Tags| && Tags[i] == t;
    if i == 0 { assert t == "code"; }
    else if i == 1 { assert t == "codein"; }
    else if i == 2 { assert t == "name"; }
    else if i == 3 { assert t == "high"; }
    else if i == 4 { assert t == "low"; }
    else if i == 5 { assert t == "varBid"; }
    else if i == 6 { assert t == "pctChange"; }
    else if i == 7 { assert false; }
    else if i == 8 { assert t == "ask"; }
    else if i == 9 { assert t == "timestamp"; }
    else { assert t == "create_date"; }
  }

  /** An object without a string bid, and any value that is neither a string
      nor an object, give exactly the default record. */
  lemma NormalizeFallsBackToDefault(doc: map<string, Json>, strict: Option<ExchangeRate>, now: Clock)
    requires PairKey in doc
    requires !doc[PairKey].JString?
    requires doc[PairKey].JObject? ==> StringAt(doc[PairKey].fields, "bid").None?
    ensures Normalize(doc, strict, now) == DefaultRate(now)
    ensures Normalize(doc, strict, now).bid == "0"
  {
  }

  /** Without the pair key, the strict decode's record is kept as decoded,
      fields left empty included; only an empty bid is patched. A failed decode
      gives the default record. */
  lemma NormalizeKeyAbsent(doc: map<string, Json>, strict: Option<ExchangeRate>, now: Clock)
    requires PairKey !in doc
    ensures strict.None? ==> Normalize(doc, strict, now) == DefaultRate(now)
    ensures strict.Some? ==> Normalize(doc, strict, now).bid == Patched(strict.value.bid)
    ensures strict.Some? ==> forall t :: t in Tags && t != "bid" ==>
      Field(Normalize(doc, strict, now), t) == Field(strict.value, t)
  {
  }

  /** The key-absent branch does not fill in defaults: a decode that found no
      fields yields empty code, name and decimals, with only the bid set. */
  lemma KeyAbsentKeepsEmptyFields(now: Clock)
    ensures var empty := ExchangeRate("", "", "", "", "", "", "", "", "", "", "");
      Normalize(map[], Some(empty), now) == empty.(bid := "0")
  {
  }

  /** A partial nested quote keeps the fields it has and defaults the rest. */
  lemma PartialObjectScenario(strict: Option<ExchangeRate>, now: Clock)
    ensures var obj := map["code" := JString("USD"), "codein" := JString("BRL"),
                           "bid" := JString("5.55"), "high" := JString("5.60")];
      var r := Normalize(map[PairKey := JObject(obj)], strict, now);
      r.bid == "5.55" && r.high == "5.60" && r.low == "0" && r.name == "Dollar/Real"
  {
  }

  /** Two runs on the same input at different times differ at most in the
      timestamp and creation date. */
  lemma NormalizeClockOnlyTouchesTimes(doc: map<string, Json>, strict: Option<ExchangeRate>, c1: Clock, c2: Clock)
    ensures forall t :: t in Tags && t != "timestamp" && t != "create_date" ==>
      Field(Normalize(doc, strict, c1), t) == Field(Normalize(doc, strict, c2), t)
  {
  }

  /** When the nested object supplies both time fields as strings, the clock
      plays no part at all. */
  lemma NormalizeIgnoresClockWhenTimesSupplied(doc: map<string, Json>, strict: Option<ExchangeRate>, c1: Clock, c2: Clock)
    requires PairKey in doc && doc[PairKey].JObject?
    requires StringAt(doc[PairKey].fields, "bid").Some?
    requires StringAt(doc[PairKey].fields, "timestamp").Some?
    requires StringAt(doc[PairKey].fields, "create_date").Some?
    ensures Normalize(doc, strict, c1) == Normalize(doc, strict, c2)
  {
  }

  /** The document that publishes one record under the pair key. */
  function Envelope(r: ExchangeRate): map<string, Json> {
    map[PairKey := JObject(ToObject(r))]
  }

  /** A record with a bid, published under the pair key, normalizes back to
      itself, whatever the clock or the strict decode say. */
  lemma CanonicalRoundTrip(r: ExchangeRate, strict: Option<ExchangeRate>, now: Clock)
    requires r.bid != ""
    ensures Normalize(Envelope(r), strict, now) == r
  {
    var obj := ToObject(r);
    assert Classify(Envelope(r)) == ObjectWithBid(obj, r.bid);
    var n := Normalize(Envelope(r), strict, now);
    forall t | t in Tags
      ensures Field(n, t) == Field(r, t)
    {
      if t != "bid" {
        NormalizeObjectWithBid(Envelope(r), strict, now, obj, r.bid);
      }
    }
    FieldsDetermineRecord(n, r);
  }

  /** Normalizing a normalized record again changes nothing. */
  lemma NormalizeIdempotent(doc: map<string, Json>, strict: Option<ExchangeRate>, now: Clock,
                            strict': Option<ExchangeRate>, later: Clock)
    ensures Normalize(Envelope(Normalize(doc, strict, now)), strict', later) == Normalize(doc, strict, now)
  {
    CanonicalRoundTrip(Normalize(doc, strict, now), strict', later);
  }
}

/**
  The canonical quote record, `ExchangeRate` of the server, together with its
  JSON field tags and the defaults that `createDefaultExchangeRate` fills in.
*/
module Rates {
  import opened Options
  import opened JsonValues

  /** One quote. Every field is text, exactly as in the Go struct. */
  datatype ExchangeRate = ExchangeRate(
    code: string,
    codein: string,
    name: string,
    high: string,
    low: string,
    varBid: string,
    pctChange: string,
    bid: string,
    ask: string,
    timestamp: string,
    createDate: string)

  /** The two readings of the wall clock the server formats: `time.Now().Unix()`
      printed in decimal, and `time.Now()` in RFC 3339 layout. */
  datatype Clock = Clock(unixSeconds: string, rfc3339: string)

  const DefaultCode := "USD"
  const DefaultCodein := "BRL"
  const DefaultName := "Dollar/Real"
  /** The text every decimal field defaults to. */
  const Zero := "0"

  /** The JSON tags of the struct's fields, in declaration order. */
  const Tags: seq<string> :=
    ["code", "codein", "name", "high", "low", "varBid", "pctChange", "bid", "ask", "timestamp", "create_date"]

  /** The field a JSON tag names, or `None` for a key the struct does not have. */
  function Field(r: ExchangeRate, tag: string): (v: Option<string>)
    ensures v.Some? <==> tag in Tags
  {
    if tag == "code" then Some(r.code)
    else if tag == "codein" then Some(r.codein)
    else if tag == "name" then Some(r.name)
    else if tag == "high" then Some(r.high)
    else if tag == "low" then Some(r.low)
    else if tag == "varBid" then Some(r.varBid)
    else if tag == "pctChange" then Some(r.pctChange)
    else if tag == "bid" then Some(r.bid)
    else if tag == "ask" then Some(r.ask)
    else if tag == "timestamp" then Some(r.timestamp)
    else if tag == "create_date" then Some(r.createDate)
    else None
  }

  /** Two records that agree on every tagged field are the same record. */
  lemma FieldsDetermineRecord(a: ExchangeRate, b: ExchangeRate)
    requires forall t :: t in Tags ==> Field(a, t) == Field(b, t)
    ensures a == b
  {
    assert Field(a, "code") == Field(b, "code");
    assert Field(a, "codein") == Field(b, "codein");
    assert Field(a, "name") == Field(b, "name");
    assert Field(a, "high") == Field(b, "high");
    assert Field(a, "low") == Field(b, "low");
    assert Field(a, "varBid") == Field(b, "varBid");
    assert Field(a, "pctChange") == Field(b, "pctChange");
    assert Field(a, "bid") == Field(b, "bid");
    assert Field(a, "ask") == Field(b, "ask");
    assert Field(a, "timestamp") == Field(b, "timestamp");
    assert Field(a, "create_date") == Field(b, "create_date");
  }

  /** `createDefaultExchangeRate`: the record served when nothing usable came
      from upstream. */
  function DefaultRate(now: Clock): ExchangeRate {
    ExchangeRate(
      code := DefaultCode,
      codein := DefaultCodein,
      name := DefaultName,
      high := Zero,
      low := Zero,
      varBid := Zero,
      pctChange := Zero,
      bid := Zero,
      ask := Zero,
      timestamp := now.unixSeconds,
      createDate := now.rfc3339)
  }

  /** The default record has a usable bid, and only its two time fields
      depend on the clock. */
  lemma DefaultRateShape(now: Clock, later: Clock)
    ensures DefaultRate(now).bid == "0"
    ensures Field(DefaultRate(now), "timestamp") == Some(now.unixSeconds)
    ensures Field(DefaultRate(now), "create_date") == Some(now.rfc3339)
    ensures forall t :: t in Tags && t != "timestamp" && t != "create_date" ==>
      Field(DefaultRate(now), t) == Field(DefaultRate(later), t)
  {
  }

  /** The record as a JSON object keyed by its tags, the way the struct is
      marshalled. */
  function ToObject(r: ExchangeRate): (obj: map<string, Json>)
    ensures forall t :: t in Tags ==> t in obj && obj[t] == JString(Field(r, t).value)
    ensures forall k :: k in obj ==> k in Tags
  {
    map[
      "code" := JString(r.code),
      "codein" := JString(r.codein),
      "name" := JString(r.name),
      "high" := JString(r.high),
      "low" := JString(r.low),
      "varBid" := JString(r.varBid),
      "pctChange" := JString(r.pctChange),
      "bid" := JString(r.bid),
      "ask" := JString(r.ask),
      "timestamp" := JString(r.timestamp),
      "create_date" := JString(r.createDate)]
  }
}

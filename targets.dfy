/**
 * Multi-domain target values (lib/bigquery-targets.ts): the cache key and
 * target id formats, the five-minute target cache, the lookup order cache →
 * database → constant fallback, the fallback table, and the mapping of a
 * database row to a target. The database is given as the value its query
 * returned; the clock as a `now` argument in milliseconds.
 */
module Targets {
  import opened Wrappers
  import opened Text
  import opened Constants
  import opened AuthTypes
  import opened JsNumbers

  datatype TargetDomain = Qc | Qa | Csat | Sla | Productivity {
    function Text(): string {
      match this
      case Qc => "qc"
      case Qa => "qa"
      case Csat => "csat"
      case Sla => "sla"
      case Productivity => "productivity"
    }
  }

  // ================================================================ keys

  /** cacheKey: domain, subtype, centre and year joined by "_". */
  function CacheKey(domain: string, subtype: string, center: string, yearText: string): string {
    domain + "_" + subtype + "_" + center + "_" + yearText
  }

  /** buildTargetId: domain, year, centre and subtype joined by "_". */
  function BuildTargetId(domain: string, year: int, center: string, subtype: string): string {
    domain + "_" + IntToString(year) + "_" + center + "_" + subtype
  }

  /**
   * `String(Number(s))` for the year part of an id. `render` gives the text of
   * a finite value that is not a safe integer (double rounding and toString).
   */
  function YearPartText(s: string, render: real -> string): (r: string)
    ensures Trim(s) == [] ==> r == "0"
    ensures NumberOf(s).NaN? ==> r == "NaN"
    ensures SafeInteger(NumberOf(s)) ==> r == IntToString(NumberOf(s).value.Floor)
  {
    NumberText(NumberOf(s), render)
  }

  /** The cache key deactivateTarget derives from a target id; `None` below four "_"-parts. */
  function DeactivateKey(targetId: string, render: real -> string): (r: Option<string>)
    ensures r.None? <==> |Split(targetId, '_')| < 4
    ensures r.Some? ==> var parts := Split(targetId, '_');
      r.value == CacheKey(parts[0], Join(parts[3..], "_"), parts[2], YearPartText(parts[1], render))
  {
    var parts := Split(targetId, '_');
    if |parts| >= 4 then Some(CacheKey(parts[0], Join(parts[3..], "_"), parts[2], YearPartText(parts[1], render)))
    else None
  }

  /**
   * An id built by buildTargetId is taken apart again: with no "_" in the
   * domain or centre and a safe-integer year, deactivateTarget drops the very
   * key getTargetValue and saveTarget use, the subtype rejoined.
   */
  lemma DeactivateKeyOfBuiltId(domain: string, year: int, center: string, subtype: string, render: real -> string)
    requires '_' !in domain && '_' !in center && -MaxSafe <= year <= MaxSafe
    ensures DeactivateKey(BuildTargetId(domain, year, center, subtype), render)
      == Some(CacheKey(domain, subtype, center, IntToString(year)))
  {
    var y := IntToString(year);
    assert '_' !in y by {
      var d := NatToString(if year < 0 then -year else year);
      assert forall k :: 0 <= k < |d| ==> IsDigit(d[k]);
    }
    JoinedSplit(domain, y, center, subtype);
    var parts := Split(BuildTargetId(domain, year, center, subtype), '_');
    assert parts[3..] == Split(subtype, '_');
    JoinSplit(subtype, '_');
    NumberTextOfInt(year, render);
  }

  /** An empty year part is Number("") = 0: "qc__용산_total" drops the key with year "0". */
  lemma DeactivateKeyEmptyYear(render: real -> string)
    ensures DeactivateKey("qc__용산_total", render) == Some(CacheKey("qc", "total", "용산", "0"))
  {
    var id := "qc__용산_total";
    assert id == "qc" + "_" + "" + "_" + "용산" + "_" + "total";
    JoinedSplit("qc", "", "용산", "total");
    SplitWithout("total", '_');
    var parts := Split(id, '_');
    assert parts[3..] == ["total"];
    assert Join(["total"], "_") == "total";
    assert Trim("") == [];
  }

  /** Four "_"-joined fields, the first three without "_", split into those three and the pieces of the last. */
  lemma JoinedSplit(a: string, b: string, c: string, d: string)
    requires '_' !in a && '_' !in b && '_' !in c
    ensures Split(a + "_" + b + "_" + c + "_" + d, '_') == [a, b, c] + Split(d, '_')
  {
    var cd := c + ['_'] + d;
    var bcd := b + ['_'] + cd;
    assert a + "_" + b + "_" + c + "_" + d == a + ['_'] + bcd;
    SplitCons(c, '_', d);
    SplitCons(b, '_', cd);
    SplitCons(a, '_', bcd);
  }

  /** A field without the separator, then the separator, splits into that field and the rest's pieces. */
  lemma SplitCons(a: string, sep: char, rest: string)
    requires sep !in a
    ensures Split(a + [sep] + rest, sep) == [a] + Split(rest, sep)
  {
    SplitConcat(a, sep, rest);
    SplitWithout(a, sep);
  }

  // ================================================================ fallback

  const CsatTargetScore: real := 4.70

  /** CSAT_SERVICE_TARGETS. */
  const CsatServiceTargets: map<string, real> :=
    map["택시" := 4.53, "바이크" := 4.90, "주차" := 4.87, "대리" := 4.51, "퀵" := 4.43]

  /**
   * getFallbackTargetValue. The qc total is the mean of the two centre rates;
   * the source rounds it to two decimals, which leaves the three table rows
   * unchanged (QcTotalNeedsNoRounding).
   */
  function FallbackTargetValue(domain: TargetDomain, subtype: string, center: string): (r: Option<real>)
    ensures domain == Qc ==>
      (center !in CenterTargetRates ==> r.None?)
      && (center in CenterTargetRates ==>
            (subtype == "attitude" ==> r == Some(CenterTargetRates[center].att))
            && (subtype == "ops" ==> r == Some(CenterTargetRates[center].ops))
            && (subtype == "total" ==> r == Some((CenterTargetRates[center].att + CenterTargetRates[center].ops) / 2.0))
            && (subtype !in {"attitude", "ops", "total"} ==> r.None?))
    ensures domain == Qa ==>
      r == (if subtype == "voice" then Some(88.0) else if subtype in {"chat", "total"} then Some(90.0) else None)
    ensures domain == Csat ==>
      r == (if subtype == "overall" then Some(CsatTargetScore)
            else if subtype in CsatServiceTargets then Some(CsatServiceTargets[subtype]) else None)
    ensures domain == Sla ==> r == (if subtype == "total" then Some(90.0) else None)
    ensures domain == Productivity ==>
      r == (if subtype in {"voice_response", "chat_response"} then Some(95.0) else None)
  {
    match domain
    case Qc =>
      if center !in CenterTargetRates then None
      else
        var rates := CenterTargetRates[center];
        if subtype == "attitude" then Some(rates.att)
        else if subtype == "ops" then Some(rates.ops)
        else if subtype == "total" then Some((rates.att + rates.ops) / 2.0)
        else None
    case Qa =>
      if subtype == "voice" then Some(88.0)
      else if subtype == "chat" then Some(90.0)
      else if subtype == "total" then Some(90.0)
      else None
    case Csat =>
      if subtype == "overall" then Some(CsatTargetScore)
      else if subtype in CsatServiceTargets then Some(CsatServiceTargets[subtype])
      else None
    case Sla => if subtype == "total" then Some(90.0) else None
    case Productivity => if subtype == "voice_response" || subtype == "chat_response" then Some(95.0) else None
  }

  /** Every qc total of the rate table is a whole number of hundredths, so rounding to two decimals keeps it. */
  lemma QcTotalNeedsNoRounding(center: string)
    requires center in CenterTargetRates
    ensures FallbackTargetValue(Qc, "total", center).Some?
    ensures var v := FallbackTargetValue(Qc, "total", center).value; (v * 100.0).Floor as real == v * 100.0
  {
    var v := FallbackTargetValue(Qc, "total", center).value;
    if center == "용산" {
      assert v * 100.0 == 360.0;
    } else if center == "광주" {
      assert v * 100.0 == 220.0;
    } else {
      assert v * 100.0 == 300.0;
    }
  }

  /** The qc fallback of the two centres is the pair getCenterQCTargets gives. */
  lemma QcFallbackAgreesWithCenterTargets(center: string)
    requires center == "용산" || center == "광주"
    ensures FallbackTargetValue(Qc, "attitude", center) == Some(CenterQcTargets(center).att)
    ensures FallbackTargetValue(Qc, "ops", center) == Some(CenterQcTargets(center).ops)
  {
  }

  // ================================================================ cache

  const CacheTtlMs: int := 5 * 60 * 1000

  datatype CacheEntry = CacheEntry(value: real, timestamp: int)

  /** An entry is still fresh at `now` when it is at most five minutes old. */
  predicate Fresh(e: CacheEntry, now: int) { now - e.timestamp <= CacheTtlMs }

  /** The module-level target cache: key → value with the time it was stored. */
  class TargetCache {
    var entries: map<string, CacheEntry>

    constructor()
      ensures entries == map[]
    {
      entries := map[];
    }

    /** The value getCached would return at `now`, without its clean-up. */
    function Lookup(key: string, now: int): (r: Option<real>)
      reads this
      ensures r.Some? <==> key in entries && Fresh(entries[key], now)
    {
      if key in entries && Fresh(entries[key], now) then Some(entries[key].value) else None
    }

    /** getCached: a fresh entry's value; an expired one is deleted. */
    method GetCached(key: string, now: int) returns (r: Option<real>)
      modifies this
      ensures r == old(Lookup(key, now))
      ensures entries == if key in old(entries) && !Fresh(old(entries)[key], now) then old(entries) - {key} else old(entries)
    {
      if key !in entries {
        return None;
      }
      var entry := entries[key];
      if now - entry.timestamp > CacheTtlMs {
        entries := entries - {key};
        return None;
      }
      return Some(entry.value);
    }

    /** setCache: the entry replaced, stamped with `now`. */
    method SetCache(key: string, value: real, now: int)
      modifies this
      ensures entries == old(entries)[key := CacheEntry(value, now)]
      ensures Lookup(key, now) == Some(value)
    {
      entries := entries[key := CacheEntry(value, now)];
    }

    /**
     * getTargetValue with the database's answer given: the cache first, then
     * the database value, then the fallback; the last two are cached, a
     * missing fallback is not.
     */
    method GetTargetValue(domain: TargetDomain, subtype: string, center: string, year: int, now: int,
                          dbValue: Option<real>) returns (r: Option<real>)
      modifies this
      ensures var key := CacheKey(domain.Text(), subtype, center, IntToString(year));
        var cached := old(Lookup(key, now));
        && (cached.Some? ==> r == cached && entries == old(entries))
        && (cached.None? && dbValue.Some? ==> r == dbValue)
        && (cached.None? && dbValue.None? ==> r == FallbackTargetValue(domain, subtype, center))
        && (cached.None? && r.Some? ==> entries == old(entries)[key := CacheEntry(r.value, now)])
        && (r.None? ==> entries == old(entries) - {key})
    {
      var key := CacheKey(domain.Text(), subtype, center, IntToString(year));
      var cached := GetCached(key, now);
      if cached.Some? {
        return cached;
      }
      if dbValue.Some? {
        SetCache(key, dbValue.value, now);
        return dbValue;
      }
      var fallback := FallbackTargetValue(domain, subtype, center);
      if fallback.Some? {
        SetCache(key, fallback.value, now);
      }
      return fallback;
    }

    /** The cache part of saveTarget: the saved value cached under its key; the id used in the database. */
    method SaveTarget(target: Target, now: int) returns (targetId: string)
      modifies this
      ensures entries == old(entries)[CacheKey(target.domain, target.targetSubtype, target.center, IntToString(target.year)) := CacheEntry(target.targetValue, now)]
      ensures targetId == if target.targetId != "" then target.targetId
                          else BuildTargetId(target.domain, target.year, target.center, target.targetSubtype)
    {
      targetId := if target.targetId != "" then target.targetId
                  else BuildTargetId(target.domain, target.year, target.center, target.targetSubtype);
      SetCache(CacheKey(target.domain, target.targetSubtype, target.center, IntToString(target.year)), target.targetValue, now);
    }

    /** The cache part of deactivateTarget: the key parsed from the id dropped. */
    method DeactivateTarget(targetId: string, render: real -> string)
      modifies this
      ensures entries == if DeactivateKey(targetId, render).Some? then old(entries) - {DeactivateKey(targetId, render).value} else old(entries)
    {
      var key := DeactivateKey(targetId, render);
      if key.Some? {
        entries := entries - {key.value};
      }
    }
  }

  /** A saved value is what the next lookup within five minutes returns, before the database. */
  lemma SavedValueServed(c: TargetCache, key: string, value: real, saved: int, now: int)
    requires key in c.entries && c.entries[key] == CacheEntry(value, saved) && saved <= now <= saved + CacheTtlMs
    ensures c.Lookup(key, now) == Some(value)
  {
  }

  // ================================================================ rows

  /** A target as the API returns it; the optional strings are "" when absent. */
  datatype Target = Target(
    targetId: string, domain: string, year: int, center: string, targetSubtype: string,
    targetValue: real, targetUnit: string, isActive: bool, updatedAt: Option<string>, updatedBy: Option<string>)

  /** `a ?? b`: `a` unless it is null or undefined. */
  function Nullish(a: Option<Json>, b: Json): Json {
    if a.Some? && !a.value.JNull? then a.value else b
  }

  /** `String(v)`: a string is itself; the rendering of other values is given. */
  function JsString(v: Json, render: Json -> string): string {
    if v.JStr? then v.s else render(v)
  }

  /**
   * rowToTarget. String() of a non-string cell is `render`, Number() is
   * `num`; `currentYear` stands for `new Date().getFullYear()`.
   */
  function RowToTarget(row: map<string, Json>, currentYear: int, render: Json -> string, num: Json -> real): (t: Target)
    ensures t.isActive <==> !(Get(row, "is_active") == Some(JBool(false)))
    ensures Get(row, "target_id").None? || Get(row, "target_id") == Some(JNull) ==> t.targetId == ""
    ensures Get(row, "center").None? || Get(row, "center") == Some(JNull) ==> t.center == "전체"
    ensures Get(row, "domain").None? || Get(row, "domain") == Some(JNull) ==> t.domain == "qc"
    ensures Get(row, "target_unit").None? || Get(row, "target_unit") == Some(JNull) ==> t.targetUnit == "%"
    ensures Get(row, "year").None? || Get(row, "year") == Some(JNull) ==> t.year == currentYear
    ensures (Get(row, "target_value").None? || Get(row, "target_value") == Some(JNull)) && Get(row, "target_rate").Some? && !Get(row, "target_rate").value.JNull? ==>
      t.targetValue == num(row["target_rate"])
    ensures t.updatedBy.Some? <==> Truthy(Get(row, "updated_by"))
    ensures t.updatedAt.Some? <==> Truthy(Get(row, "updated_at"))
  {
    Target(
      JsString(Nullish(Get(row, "target_id"), JStr("")), render),
      JsString(Nullish(Get(row, "domain"), JStr("qc")), render),
      if Get(row, "year").Some? && !row["year"].JNull? then (num(row["year"])).Floor else currentYear,
      JsString(Nullish(Get(row, "center"), JStr("전체")), render),
      JsString(Nullish(Get(row, "target_subtype"), JStr("")), render),
      num(Nullish(Get(row, "target_value"), Nullish(Get(row, "target_rate"), JNum(0.0)))),
      JsString(Nullish(Get(row, "target_unit"), JStr("%")), render),
      !(Get(row, "is_active") == Some(JBool(false))),
      if Truthy(Get(row, "updated_at")) then
        var u := row["updated_at"];
        Some(JsString(Nullish(Field(u, "value"), u), render))
      else None,
      if Truthy(Get(row, "updated_by")) then Some(JsString(row["updated_by"], render)) else None)
  }

  function Get(row: map<string, Json>, key: string): Option<Json> {
    if key in row then Some(row[key]) else None
  }
}

/**
  The constant resolver: geo-target and language handles looked up on the
  platform and memoised, for the life of the process, in two maps.
*/
module GoogleAdsService {
  import opened Wrappers
  import opened AdsPlatform

  /** The location type asked for when a geo target is resolved. */
  const DefaultLocale: string := "Country"

  const LanguageQueryPrefix: string :=
    "SELECT language_constant.resource_name FROM language_constant WHERE language_constant.code = '"

  /** The search for a language constant: the language code between the quotes of the fixed query. */
  function LanguageQuery(languageCode: string): (q: string)
    ensures |q| == |LanguageQueryPrefix| + |languageCode| + 1
    ensures q[..|LanguageQueryPrefix|] == LanguageQueryPrefix
    ensures q[|LanguageQueryPrefix|..|q| - 1] == languageCode
    ensures q[|q| - 1] == '\''
  {
    LanguageQueryPrefix + languageCode + "'"
  }

  /** Distinct language codes are searched with distinct queries. */
  lemma LanguageQueryInjective(a: string, b: string)
    requires LanguageQuery(a) == LanguageQuery(b)
    ensures a == b
  {
    var q := LanguageQuery(a);
    assert a == q[|LanguageQueryPrefix|..|q| - 1];
  }

  /** Both caches: geo targets by country code, languages by language code. */
  datatype Caches = Caches(geo: map<string, string>, language: map<string, string>)

  /**
    A cache fill: the first candidate, and only it, is stored under `key`;
    with no candidate the cache is left as it was.
  */
  function StoreFirst(cache: map<string, string>, key: string, candidates: seq<string>): (m: map<string, string>)
    ensures |candidates| > 0 ==> key in m && m[key] == candidates[0]
    ensures |candidates| == 0 ==> m == cache
    ensures m.Keys == cache.Keys + (if |candidates| > 0 then {key} else {})
    ensures forall k :: k in cache && k != key ==> m[k] == cache[k]
  {
    // the PHP foreach stores its first element and breaks
    if |candidates| > 0 then cache[key := candidates[0]] else cache
  }

  /** What one get* does: the cache afterwards, the remote calls it made and the handle it returns. */
  datatype Lookup<H> = Lookup(cache: map<string, string>, calls: seq<Call>, handle: Result<H, Error>)

  /**
    getGeoTargetConstant. A hit makes no call. A miss asks for suggestions
    once; a failed request ends in an error, zero suggestions return null and
    leave the key unset, otherwise the first suggestion is stored and returned.
  */
  function GeoLookup(p: Platform, cache: map<string, string>, countryCode: string, locale: string)
    : (l: Lookup<Option<string>>)
    ensures countryCode in cache ==> l == Lookup(cache, [], Success(Some(cache[countryCode])))
    ensures countryCode !in cache ==> l.calls == [SuggestGeoTargets(locale, countryCode, [countryCode])]
    ensures countryCode !in cache ==>
              var reply := p.suggestGeoTargets(locale, countryCode, [countryCode]);
              && (reply.Failure? ==> l.cache == cache && l.handle == Failure(Remote(reply.error)))
              && (reply.Success? && |reply.value| == 0 ==> l.cache == cache && l.handle == Success(None))
              && (reply.Success? && |reply.value| > 0 ==>
                    l.cache == cache[countryCode := reply.value[0]] && l.handle == Success(Some(reply.value[0])))
    ensures forall k :: k in cache ==> k in l.cache && l.cache[k] == cache[k]
    ensures l.cache.Keys <= cache.Keys + {countryCode}
  {
    if countryCode in cache then
      Lookup(cache, [], Success(Some(cache[countryCode])))
    else
      var calls := [SuggestGeoTargets(locale, countryCode, [countryCode])];
      match p.suggestGeoTargets(locale, countryCode, [countryCode])
      case Failure(e) => Lookup(cache, calls, Failure(Remote(e)))
      case Success(suggestions) =>
        var filled := StoreFirst(cache, countryCode, suggestions);
        Lookup(filled, calls, Success(if countryCode in filled then Some(filled[countryCode]) else None))
  }

  /**
    getLanguageConstant. Same memoisation, by language code, over the rows of
    the language query. With no row the declared string result is missing,
    which is an error.
  */
  function LanguageLookup(p: Platform, cache: map<string, string>, languageCode: string, customerId: int)
    : (l: Lookup<string>)
    ensures languageCode in cache ==> l == Lookup(cache, [], Success(cache[languageCode]))
    ensures languageCode !in cache ==> l.calls == [Search(customerId, LanguageQuery(languageCode))]
    ensures languageCode !in cache ==>
              var reply := p.search(customerId, LanguageQuery(languageCode));
              && (reply.Failure? ==> l.cache == cache && l.handle == Failure(Remote(reply.error)))
              && (reply.Success? && |reply.value| == 0 ==>
                    l.cache == cache && l.handle == Failure(LanguageConstantMissing(languageCode)))
              && (reply.Success? && |reply.value| > 0 ==>
                    l.cache == cache[languageCode := reply.value[0]] && l.handle == Success(reply.value[0]))
    ensures forall k :: k in cache ==> k in l.cache && l.cache[k] == cache[k]
    ensures l.cache.Keys <= cache.Keys + {languageCode}
  {
    if languageCode in cache then
      Lookup(cache, [], Success(cache[languageCode]))
    else
      var calls := [Search(customerId, LanguageQuery(languageCode))];
      match p.search(customerId, LanguageQuery(languageCode))
      case Failure(e) => Lookup(cache, calls, Failure(Remote(e)))
      case Success(rows) =>
        var filled := StoreFirst(cache, languageCode, rows);
        Lookup(filled, calls,
               if languageCode in filled then Success(filled[languageCode])
               else Failure(LanguageConstantMissing(languageCode)))
  }

  /** Once a country code resolved to a handle, asking again makes no call and returns the same handle. */
  lemma RepeatedGeoLookupIsCached(p: Platform, cache: map<string, string>, countryCode: string, locale: string)
    requires GeoLookup(p, cache, countryCode, locale).handle.Success?
    requires GeoLookup(p, cache, countryCode, locale).handle.value.Some?
    ensures var first := GeoLookup(p, cache, countryCode, locale);
            GeoLookup(p, first.cache, countryCode, locale) == Lookup(first.cache, [], first.handle)
  {
  }

  /** No negative caching: a lookup that found no suggestion is repeated in full the next time. */
  lemma UnresolvedGeoLookupIsRepeated(p: Platform, cache: map<string, string>, countryCode: string, locale: string)
    requires GeoLookup(p, cache, countryCode, locale).handle == Success(None)
    ensures var first := GeoLookup(p, cache, countryCode, locale);
            first.cache == cache && GeoLookup(p, first.cache, countryCode, locale) == first
  {
  }

  /** The platform suggests at least one geo target for `countryCode`. */
  predicate Suggests(p: Platform, locale: string, countryCode: string)
  {
    p.suggestGeoTargets(locale, countryCode, [countryCode]).Success?
    && |p.suggestGeoTargets(locale, countryCode, [countryCode]).value| > 0
  }

  /** Geo lookups for `codes`, one after the other, over a cache that carries from one to the next. */
  function GeoLookups(p: Platform, cache: map<string, string>, codes: seq<string>, locale: string)
    : (r: (map<string, string>, seq<Call>))
    decreases |codes|
  {
    if codes == [] then (cache, [])
    else
      var first := GeoLookup(p, cache, codes[0], locale);
      var rest := GeoLookups(p, first.cache, codes[1..], locale);
      (rest.0, first.calls + rest.1)
  }

  /** The codes of `codes` that `cache` does not hold. */
  function Missing(codes: seq<string>, cache: map<string, string>): set<string>
  {
    set c | c in codes && c !in cache
  }

  /** After the first code is cached, what is missing is the rest's missing codes, plus the first if it was missing. */
  lemma MissingAfterFirst(codes: seq<string>, cache: map<string, string>, filled: map<string, string>)
    requires codes != []
    requires filled.Keys == cache.Keys + {codes[0]}
    ensures codes[0] !in Missing(codes[1..], filled)
    ensures Missing(codes, cache)
         == Missing(codes[1..], filled) + (if codes[0] in cache then {} else {codes[0]})
  {
    var lhs := Missing(codes, cache);
    var rhs := Missing(codes[1..], filled) + (if codes[0] in cache then {} else {codes[0]});
    forall c | c in lhs ensures c in rhs {
      var i :| 0 <= i < |codes| && codes[i] == c;
      if i > 0 && c != codes[0] {
        assert codes[1..][i - 1] == c;
      }
    }
  }

  /** A lookup that resolves caches its code and asks the platform only when the code was not cached. */
  lemma ResolvedLookup(p: Platform, cache: map<string, string>, code: string, locale: string)
    requires Suggests(p, locale, code)
    ensures var l := GeoLookup(p, cache, code, locale);
            && l.cache.Keys == cache.Keys + {code}
            && |l.calls| == if code in cache then 0 else 1
  {
  }

  lemma SuggestsRest(p: Platform, locale: string, codes: seq<string>)
    requires codes != []
    requires forall i :: 0 <= i < |codes| ==> Suggests(p, locale, codes[i])
    ensures Suggests(p, locale, codes[0])
    ensures forall i :: 0 <= i < |codes[1..]| ==> Suggests(p, locale, codes[1..][i])
  {
    forall i | 0 <= i < |codes[1..]| ensures Suggests(p, locale, codes[1..][i]) {
      assert codes[1..][i] == codes[i + 1];
    }
  }

  /** What a run of lookups leaves in the cache: every code it looked up, on top of what was there. */
  lemma {:induction false} LookupsCacheEveryCode(
    p: Platform, cache: map<string, string>, codes: seq<string>, locale: string)
    requires forall i :: 0 <= i < |codes| ==> Suggests(p, locale, codes[i])
    ensures GeoLookups(p, cache, codes, locale).0.Keys == cache.Keys + set c | c in codes
    decreases |codes|
  {
    if codes != [] {
      var first := GeoLookup(p, cache, codes[0], locale);
      SuggestsRest(p, locale, codes);
      ResolvedLookup(p, cache, codes[0], locale);
      LookupsCacheEveryCode(p, first.cache, codes[1..], locale);
      assert codes == [codes[0]] + codes[1..];
      assert (set c | c in codes) == {codes[0]} + set c | c in codes[1..];
    }
  }

  /**
    Memoisation over the life of the process: when every lookup resolves,
    a run of lookups asks the platform exactly once per distinct code that
    was not cached to begin with.
  */
  lemma {:induction false} OneRemoteLookupPerDistinctCode(
    p: Platform, cache: map<string, string>, codes: seq<string>, locale: string)
    requires forall i :: 0 <= i < |codes| ==> Suggests(p, locale, codes[i])
    ensures |GeoLookups(p, cache, codes, locale).1| == |Missing(codes, cache)|
    decreases |codes|
  {
    if codes != [] {
      var code := codes[0];
      var first := GeoLookup(p, cache, code, locale);
      SuggestsRest(p, locale, codes);
      ResolvedLookup(p, cache, code, locale);
      OneRemoteLookupPerDistinctCode(p, first.cache, codes[1..], locale);
      MissingAfterFirst(codes, cache, first.cache);
      var restCalls := GeoLookups(p, first.cache, codes[1..], locale).1;
      var restMissing := Missing(codes[1..], first.cache);
      assert GeoLookups(p, cache, codes, locale).1 == first.calls + restCalls;
      if code !in cache {
        assert |restMissing + {code}| == |restMissing| + 1;
      }
    }
  }

  /** The two process-wide maps of the service, shared by every caller. */
  class ConstantCache {
    var geoTargetConstants: map<string, string>
    var languageConstants: map<string, string>

    constructor ()
      ensures geoTargetConstants == map[] && languageConstants == map[]
    {
      geoTargetConstants := map[];
      languageConstants := map[];
    }

    function Contents(): Caches
      reads this
    {
      Caches(geoTargetConstants, languageConstants)
    }

    /** Asks for geo-target suggestions and stores the first one under `countryCode`. */
    method SetGeoTargetConstant(client: AdsClient, locationNames: seq<string>, locale: string, countryCode: string)
      returns (error: Option<Error>)
      modifies this`geoTargetConstants, client
      ensures client.trace == old(client.trace) + [SuggestGeoTargets(locale, countryCode, locationNames)]
      ensures var reply := client.platform.suggestGeoTargets(locale, countryCode, locationNames);
              && (reply.Failure? ==>
                    error == Some(Remote(reply.error)) && geoTargetConstants == old(geoTargetConstants))
              && (reply.Success? ==>
                    error == None && geoTargetConstants == StoreFirst(old(geoTargetConstants), countryCode, reply.value))
    {
      var response := client.SuggestGeoTargetConstants(locale, countryCode, locationNames);
      if response.Failure? {
        // the exception is only logged; reading the missing response then fails
        return Some(Remote(response.error));
      }
      var suggestions := response.value;
      if |suggestions| > 0 {
        geoTargetConstants := geoTargetConstants[countryCode := suggestions[0]];
      }
      error := None;
    }

    /** Searches for the language constant of `languageCode` and stores the first row. */
    method SetLanguageConstant(client: AdsClient, languageCode: string, customerId: int)
      returns (error: Option<Error>)
      modifies this`languageConstants, client
      ensures client.trace == old(client.trace) + [Search(customerId, LanguageQuery(languageCode))]
      ensures var reply := client.platform.search(customerId, LanguageQuery(languageCode));
              && (reply.Failure? ==>
                    error == Some(Remote(reply.error)) && languageConstants == old(languageConstants))
              && (reply.Success? ==>
                    error == None && languageConstants == StoreFirst(old(languageConstants), languageCode, reply.value))
    {
      var query := LanguageQuery(languageCode);
      var search := client.SearchRows(customerId, query);
      if search.Failure? {
        return Some(Remote(search.error));
      }
      var rows := search.value;
      if |rows| > 0 {
        languageConstants := languageConstants[languageCode := rows[0]];
      }
      error := None;
    }

    method GetLanguageConstant(client: AdsClient, languageCode: string, customerId: int)
      returns (r: Result<string, Error>)
      modifies this`languageConstants, client
      ensures var l := LanguageLookup(client.platform, old(languageConstants), languageCode, customerId);
              r == l.handle && languageConstants == l.cache && client.trace == old(client.trace) + l.calls
    {
      if languageCode !in languageConstants {
        var error := SetLanguageConstant(client, languageCode, customerId);
        if error.Some? {
          return Failure(error.value);
        }
      }
      if languageCode in languageConstants {
        r := Success(languageConstants[languageCode]);
      } else {
        r := Failure(LanguageConstantMissing(languageCode));
      }
    }

    method GetGeoTargetConstant(client: AdsClient, countryCode: string, locale: string)
      returns (r: Result<Option<string>, Error>)
      modifies this`geoTargetConstants, client
      ensures var l := GeoLookup(client.platform, old(geoTargetConstants), countryCode, locale);
              r == l.handle && geoTargetConstants == l.cache && client.trace == old(client.trace) + l.calls
    {
      if countryCode !in geoTargetConstants {
        var error := SetGeoTargetConstant(client, [countryCode], locale, countryCode);
        if error.Some? {
          return Failure(error.value);
        }
      }
      // an unset key reads as null
      if countryCode in geoTargetConstants {
        r := Success(Some(geoTargetConstants[countryCode]));
      } else {
        r := Success(None);
      }
    }
  }
}

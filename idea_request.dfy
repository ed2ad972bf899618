/**
  Shaping of a keyword-ideas request: the defaults applied to the incoming
  request array and the choice of seed.
*/
module Request {
  import opened Wrappers
  import opened AdsPlatform

  /** A value of the incoming PHP request array. */
  datatype Value = Str(s: string) | List(items: seq<string>) | Int(i: int) | Null

  /** The incoming request array, keyed by field name. */
  type RequestData = map<string, Value>

  const DefaultLanguageCode: string := "en_US"

  const MissingSeedMessage: string :=
    "At least one of keywords or page URL is required, but neither was specified."

  /** The keywords of a request: the 'keyWords' list, or none when it is absent, null or not a list. */
  function KeyWordsOf(data: RequestData): (keywords: seq<string>)
    ensures "keyWords" in data && data["keyWords"].List? ==> keywords == data["keyWords"].items
    ensures !("keyWords" in data && data["keyWords"].List?) ==> keywords == []
  {
    if "keyWords" in data && data["keyWords"].List? then data["keyWords"].items else []
  }

  /** The page URL of a request: the 'pageUrl' string (the empty string included), or null otherwise. */
  function PageUrlOf(data: RequestData): (pageUrl: Option<string>)
    ensures pageUrl.Some? <==> "pageUrl" in data && data["pageUrl"].Str?
    ensures pageUrl.Some? ==> pageUrl.value == data["pageUrl"].s
  {
    if "pageUrl" in data && data["pageUrl"].Str? then Some(data["pageUrl"].s) else None
  }

  /** The language code of a request: the 'languageCode' string, or "en_US" when it is absent or not a string. */
  function LanguageCodeOf(data: RequestData): (code: string)
    ensures "languageCode" in data && data["languageCode"].Str? ==> code == data["languageCode"].s
    ensures !("languageCode" in data && data["languageCode"].Str?) ==> code == "en_US"
  {
    if "languageCode" in data && data["languageCode"].Str? then data["languageCode"].s else DefaultLanguageCode
  }

  /** The keywords a seed carries. */
  function SeedKeywords(seed: Seed): seq<string>
  {
    match seed
    case UrlSeed(_) => []
    case KeywordSeed(keywords) => keywords
    case KeywordAndUrlSeed(_, keywords) => keywords
  }

  /** The URL a seed carries. */
  function SeedUrl(seed: Seed): Option<string>
  {
    match seed
    case UrlSeed(url) => Some(url)
    case KeywordSeed(_) => None
    case KeywordAndUrlSeed(url, _) => Some(url)
  }

  /**
    The seed mode: a URL alone gives a URL seed, keywords alone a keyword
    seed, both a combined seed; neither is an invalid argument. The seed
    carries the keywords and the URL unchanged.
  */
  function ChooseSeed(keywords: seq<string>, pageUrl: Option<string>): (r: Result<Seed, Error>)
    ensures r.Failure? <==> keywords == [] && pageUrl.None?
    ensures r.Failure? ==> r.error == InvalidArgument(MissingSeedMessage)
    ensures r.Success? ==> (r.value.UrlSeed? <==> keywords == [])
    ensures r.Success? ==> (r.value.KeywordSeed? <==> pageUrl.None?)
    ensures r.Success? ==> (r.value.KeywordAndUrlSeed? <==> keywords != [] && pageUrl.Some?)
    ensures r.Success? ==> SeedKeywords(r.value) == keywords && SeedUrl(r.value) == pageUrl
  {
    if keywords == [] && pageUrl.None? then
      Failure(InvalidArgument(MissingSeedMessage))
    else if keywords == [] then
      Success(UrlSeed(pageUrl.value))
    else if pageUrl.None? then
      Success(KeywordSeed(keywords))
    else
      Success(KeywordAndUrlSeed(pageUrl.value, keywords))
  }

  /** A request array that names neither keywords nor a URL, however it spells its language, has no seed. */
  lemma EmptyRequestHasNoSeed(data: RequestData)
    requires "keyWords" in data && data["keyWords"] == List([])
    requires "pageUrl" !in data
    ensures ChooseSeed(KeyWordsOf(data), PageUrlOf(data)) == Failure(InvalidArgument(MissingSeedMessage))
  {
  }
}

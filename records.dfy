/**
  The shapes of app/types/pokemon.ts that the components read, the outcome of one
  `fetch` + `response.json()` round, and the record helpers that both the home page
  and the featured section use.
 */
module Records {
  import opened Text

  datatype Option<+T> = None | Some(value: T)

  /** The PokéAPI endpoint every component requests from. */
  const ApiBase: string := "https://pokeapi.co/api/v2/pokemon/"
  /** The detail-page route prefix. */
  const RoutePrefix: string := "/pokemon/"

  /** `PokemonStat`: `base_stat` and `stat.name` (effort and url are not read). */
  datatype PokemonStat = PokemonStat(baseStat: int, statName: string)

  /** `PokemonType`: `slot` and `type.name`. */
  datatype PokemonType = PokemonType(slot: int, typeName: string)

  /** The two sprite URLs that are read; `None` is JSON `null`. */
  datatype Sprites = Sprites(frontDefault: Option<string>, officialArtwork: Option<string>)

  /** The part of the raw `Pokemon` record the components read. */
  datatype Pokemon = Pokemon(
    id: nat,
    name: string,
    sprites: Sprites,
    stats: seq<PokemonStat>,
    types: seq<PokemonType>)

  datatype CoreStats = CoreStats(hp: int, attack: int, defense: int)

  /**
    `SimplePokemon`. The image is a nullable string: the featured section can store
    `null` there although the interface declares `string`.
   */
  datatype SimplePokemon = SimplePokemon(
    id: nat,
    name: string,
    image: Option<string>,
    types: seq<string>,
    stats: CoreStats)

  /**
    What one request yields: the `fetch` promise rejected, or a response with its `ok`
    flag and the body's JSON (`None` when `response.json()` rejects).
   */
  datatype FetchOutcome = Rejected | Responded(ok: bool, json: Option<Pokemon>)

  /** JavaScript truthiness of a `string | null`: neither null nor empty. */
  predicate Truthy(v: Option<string>) {
    v.Some? && v.value != ""
  }

  /** Index of the first stat named `name`, or `|stats|` when there is none (`Array.prototype.find`). */
  function FirstStatIndex(stats: seq<PokemonStat>, name: string): (k: nat)
    ensures k <= |stats|
    ensures forall j :: 0 <= j < k ==> stats[j].statName != name
    ensures k < |stats| ==> stats[k].statName == name
  {
    if |stats| == 0 then 0
    else if stats[0].statName == name then 0
    else 1 + FirstStatIndex(stats[1..], name)
  }

  /** `stats.find(s => s.stat.name === name)?.base_stat || 0` */
  function StatOrZero(stats: seq<PokemonStat>, name: string): (v: int)
    ensures (forall i :: 0 <= i < |stats| ==> stats[i].statName != name) ==> v == 0
    ensures forall i :: 0 <= i < |stats| && stats[i].statName == name
                        && (forall j :: 0 <= j < i ==> stats[j].statName != name)
                        ==> v == stats[i].baseStat
  {
    var k := FirstStatIndex(stats, name);
    // `undefined || 0` and `0 || 0` are both 0
    if k < |stats| && stats[k].baseStat != 0 then stats[k].baseStat else 0
  }

  /** The hp, attack and defense read from a raw stat list. */
  function CoreStatsOf(stats: seq<PokemonStat>): CoreStats {
    CoreStats(StatOrZero(stats, "hp"), StatOrZero(stats, "attack"), StatOrZero(stats, "defense"))
  }

  /** Stats that the record does not list are 0; listed ones are the first entry's value. */
  lemma CoreStatsFallback(stats: seq<PokemonStat>)
    ensures CoreStatsOf(stats).hp ==
      (if FirstStatIndex(stats, "hp") < |stats| then stats[FirstStatIndex(stats, "hp")].baseStat else 0)
    ensures CoreStatsOf(stats).attack ==
      (if FirstStatIndex(stats, "attack") < |stats| then stats[FirstStatIndex(stats, "attack")].baseStat else 0)
    ensures CoreStatsOf(stats).defense ==
      (if FirstStatIndex(stats, "defense") < |stats| then stats[FirstStatIndex(stats, "defense")].baseStat else 0)
    ensures (forall i :: 0 <= i < |stats| ==> stats[i].baseStat >= 0) ==>
      CoreStatsOf(stats).hp >= 0 && CoreStatsOf(stats).attack >= 0 && CoreStatsOf(stats).defense >= 0
  {}

  /** `data.types.map(t => t.type.name)` */
  function TypeNames(types: seq<PokemonType>): (names: seq<string>)
    ensures |names| == |types|
    ensures forall i :: 0 <= i < |types| ==> names[i] == types[i].typeName
  {
    seq(|types|, i requires 0 <= i < |types| => types[i].typeName)
  }

  /** The request URL `https://pokeapi.co/api/v2/pokemon/${id}`. */
  function PokemonUrl(id: nat): (url: string)
    ensures |url| > |ApiBase| && url[..|ApiBase|] == ApiBase
    ensures AllDigits(url[|ApiBase|..]) && DecimalValue(url[|ApiBase|..]) == id
    ensures url[|ApiBase|..] == NatToDecimal(id)
  {
    var url := ApiBase + NatToDecimal(id);
    assert url[|ApiBase|..] == NatToDecimal(id);
    DecimalRoundTrip(id);
    url
  }

  /** Distinct ids are requested from distinct URLs. */
  lemma PokemonUrlInjective(a: nat, b: nat)
    requires PokemonUrl(a) == PokemonUrl(b)
    ensures a == b
  {
    assert PokemonUrl(a)[|ApiBase|..] == PokemonUrl(b)[|ApiBase|..];
  }

  /** The detail route `/pokemon/${id.toString().padStart(3, '0')}`. */
  function DetailRoute(id: nat): (r: string)
    ensures |r| >= |RoutePrefix| + 3 && r[..|RoutePrefix|] == RoutePrefix
  {
    RoutePrefix + PadId(id)
  }

  /** The id badge `#${id.toString().padStart(3, '0')}` both cards show. */
  function IdBadge(id: nat): (b: string)
    ensures |b| >= 4 && b[0] == '#'
    ensures id < 1000 ==> |b| == 4
    ensures id >= 1000 ==> b == "#" + NatToDecimal(id)
  {
    PadIdLength(id);
    "#" + PadId(id)
  }

  /** The badge's digits are the route's last segment and read back as the id. */
  lemma IdBadgeShowsId(id: nat)
    ensures IdBadge(id)[1..] == DetailRoute(id)[|RoutePrefix|..]
    ensures AllDigits(IdBadge(id)[1..])
    ensures DecimalValue(IdBadge(id)[1..]) == id
  {
    assert IdBadge(id)[1..] == PadId(id);
    DetailRouteIdentifiesId(id);
  }

  /** The route's last segment reads back as the id, so distinct ids never share a route. */
  lemma DetailRouteIdentifiesId(id: nat)
    ensures DetailRoute(id)[..|RoutePrefix|] == RoutePrefix
    ensures AllDigits(DetailRoute(id)[|RoutePrefix|..])
    ensures DecimalValue(DetailRoute(id)[|RoutePrefix|..]) == id
  {
    assert DetailRoute(id)[|RoutePrefix|..] == PadId(id);
    PadIdRoundTrip(id);
  }

  lemma DetailRouteInjective(a: nat, b: nat)
    requires DetailRoute(a) == DetailRoute(b)
    ensures a == b
  {
    DetailRouteIdentifiesId(a);
    DetailRouteIdentifiesId(b);
  }
}

/**
  components/common/FeaturedCard/FeaturedCard.tsx: the featured section's colour
  tables, its record mapping (no image placeholder), the draw of four distinct ids,
  the request loop, the all-or-nothing batch, the card it renders, and its state.
 */
module FeaturedCard {
  import opened Text
  import opened Records
  import opened Palette

  // ---------------------------------------------------------------------------
  // Colour tables (lines 11-60)

  const LightFallback: string := "#A8A8A8"
  const DarkFallback: string := "#9E9E9E"

  const LightTypeColors: map<string, string> := map[
    "fire" := "#FF6B6B", "water" := "#4ECDC4", "electric" := "#FFD93D",
    "grass" := "#6BCF7F", "ice" := "#74C0FC", "fighting" := "#FF8787",
    "poison" := "#DA77F2", "ground" := "#FECA57", "flying" := "#74C0FC",
    "psychic" := "#FDA7DF", "bug" := "#82ca9d", "rock" := "#FDCB6E",
    "ghost" := "#A29BFE", "dragon" := "#6C5CE7", "dark" := "#636e72",
    "steel" := "#ddd", "fairy" := "#FD79A8", "normal" := "#A8A8A8"
  ]

  const DarkTypeColors: map<string, string> := map[
    "fire" := "#FF5722", "water" := "#2196F3", "electric" := "#FFC107",
    "grass" := "#4CAF50", "ice" := "#03A9F4", "fighting" := "#F44336",
    "poison" := "#9C27B0", "ground" := "#795548", "flying" := "#607D8B",
    "psychic" := "#E91E63", "bug" := "#8BC34A", "rock" := "#FF9800",
    "ghost" := "#673AB7", "dragon" := "#3F51B5", "dark" := "#424242",
    "steel" := "#9E9E9E", "fairy" := "#E91E63", "normal" := "#9E9E9E"
  ]

  /** The light table lists exactly the known types. */
  lemma LightKeys()
    ensures LightTypeColors.Keys == KnownTypes
  {}

  /** The dark table lists exactly the known types. */
  lemma DarkKeys()
    ensures DarkTypeColors.Keys == KnownTypes
  {}

  /** The colours the light table uses. */
  const LightColors: set<string> := {
    "#FF6B6B", "#4ECDC4", "#FFD93D", "#6BCF7F", "#74C0FC", "#FF8787", "#DA77F2", "#FECA57",
    "#FDA7DF", "#82ca9d", "#FDCB6E", "#A29BFE", "#6C5CE7", "#636e72", "#ddd", "#FD79A8", "#A8A8A8"
  }

  /** The colours the dark table uses. */
  const DarkColors: set<string> := {
    "#FF5722", "#2196F3", "#FFC107", "#4CAF50", "#03A9F4", "#F44336", "#9C27B0", "#795548",
    "#607D8B", "#E91E63", "#8BC34A", "#FF9800", "#673AB7", "#3F51B5", "#424242", "#9E9E9E"
  }

  lemma LightValues()
    ensures forall t | t in LightTypeColors :: LightTypeColors[t] in LightColors
  {}

  lemma DarkValues()
    ensures forall t | t in DarkTypeColors :: DarkTypeColors[t] in DarkColors
  {}

  lemma LightColorsHex()
    ensures forall c | c in LightColors :: IsHexColor(c)
  {}

  lemma DarkColorsHex()
    ensures forall c | c in DarkColors :: IsHexColor(c)
  {}

  /** Every entry of the light table is a hex colour. */
  lemma LightHex()
    ensures forall t | t in LightTypeColors :: IsHexColor(LightTypeColors[t])
  {
    LightValues();
    LightColorsHex();
  }

  /** Every entry of the dark table is a hex colour. */
  lemma DarkHex()
    ensures forall t | t in DarkTypeColors :: IsHexColor(DarkTypeColors[t])
  {
    DarkValues();
    DarkColorsHex();
  }

  /** `getTypeColor`: the light colour of a listed type, `#A8A8A8` for any other string. */
  function GetTypeColor(t: string): (c: string)
    ensures IsHexColor(c)
    ensures t in KnownTypes ==> t in LightTypeColors && c == LightTypeColors[t]
    ensures t !in KnownTypes ==> c == LightFallback
  {
    LightKeys();
    LightHex();
    LookupOr(LightTypeColors, t, LightFallback)
  }

  /** `getTypeColorBg`: the dark colour of a listed type, `#9E9E9E` for any other string. */
  function GetTypeColorBg(t: string): (c: string)
    ensures IsHexColor(c)
    ensures t in KnownTypes ==> t in DarkTypeColors && c == DarkTypeColors[t]
    ensures t !in KnownTypes ==> c == DarkFallback
  {
    DarkKeys();
    DarkHex();
    LookupOr(DarkTypeColors, t, DarkFallback)
  }

  /** An unknown type is drawn like "normal". */
  lemma UnknownLikeNormal()
    ensures forall t :: t !in KnownTypes ==> GetTypeColor(t) == GetTypeColor("normal")
    ensures forall t :: t !in KnownTypes ==> GetTypeColorBg(t) == GetTypeColorBg("normal")
  {}

  // ---------------------------------------------------------------------------
  // Record mapping (lines 99-114)

  /** `data.sprites.other['official-artwork'].front_default || data.sprites.front_default` */
  function FeaturedImage(s: Sprites): Option<string> {
    if Truthy(s.officialArtwork) then s.officialArtwork else s.frontDefault
  }

  /** One raw record as the featured section stores it. */
  function NormalizeFeatured(d: Pokemon): (p: SimplePokemon)
    ensures p.id == d.id
    ensures |p.name| == |d.name| && (|d.name| > 0 ==> p.name[0] == UpperChar(d.name[0]))
    ensures forall i :: 1 <= i < |d.name| ==> p.name[i] == d.name[i]
    ensures |p.types| == |d.types| && forall i :: 0 <= i < |d.types| ==> p.types[i] == d.types[i].typeName
    ensures p.stats.hp == StatOrZero(d.stats, "hp")
    ensures p.stats.attack == StatOrZero(d.stats, "attack")
    ensures p.stats.defense == StatOrZero(d.stats, "defense")
    ensures Truthy(d.sprites.officialArtwork) ==> p.image == d.sprites.officialArtwork
    ensures !Truthy(d.sprites.officialArtwork) ==> p.image == d.sprites.frontDefault
  {
    SimplePokemon(d.id, Capitalize(d.name), FeaturedImage(d.sprites), TypeNames(d.types), CoreStatsOf(d.stats))
  }

  /** The image is null or empty exactly when neither sprite is set: there is no placeholder. */
  lemma FeaturedImageCanBeMissing(d: Pokemon)
    ensures !Truthy(NormalizeFeatured(d).image) <==>
      !Truthy(d.sprites.officialArtwork) && !Truthy(d.sprites.frontDefault)
  {}

  // ---------------------------------------------------------------------------
  // Draw of four distinct ids (lines 78-84)

  predicate Distinct<T(==)>(s: seq<T>) {
    forall i, j :: 0 <= i < j < |s| ==> s[i] != s[j]
  }

  /** The distinct values of `s` in order of first occurrence. */
  function Dedup(s: seq<nat>): (d: seq<nat>)
    ensures forall x :: x in d <==> x in s
    ensures Distinct(d)
  {
    if |s| == 0 then []
    else
      var d0 := Dedup(s[..|s| - 1]);
      if s[|s| - 1] in d0 then d0 else d0 + [s[|s| - 1]]
  }

  /** One more element extends the distinct-value list exactly when it is new. */
  lemma DedupStep(s: seq<nat>, k: nat)
    requires k < |s|
    ensures Dedup(s[..k + 1]) == if s[k] in Dedup(s[..k]) then Dedup(s[..k]) else Dedup(s[..k]) + [s[k]]
  {
    assert s[..k + 1][..k] == s[..k];
  }

  /** What the distinct-value list of a prefix keeps is kept, unreordered, by every longer prefix. */
  lemma {:induction false} DedupPrefix(s: seq<nat>, k: nat)
    requires k <= |s|
    ensures |Dedup(s[..k])| <= |Dedup(s)|
    ensures Dedup(s[..k]) == Dedup(s)[..|Dedup(s[..k])|]
    decreases |s| - k
  {
    if k < |s| {
      DedupPrefix(s, k + 1);
      assert s[..k + 1][..k] == s[..k];
    } else {
      assert s[..k] == s;
    }
  }

  /** A duplicate-free list has as many elements as its set of values. */
  lemma {:induction false} DistinctCard(s: seq<nat>)
    requires Distinct(s)
    ensures |set x: nat | x in s| == |s|
  {
    if |s| > 0 {
      var last := s[|s| - 1];
      var init := s[..|s| - 1];
      DistinctCard(init);
      var before := set x: nat | x in init;
      var after := set x: nat | x in s;
      assert after == before + {last};
      assert last !in before;
      assert |after| == |before| + 1;
    }
  }

  /** The distinct-value list is as long as the set of values. */
  lemma DedupLength(s: seq<nat>)
    ensures |Dedup(s)| == |set x: nat | x in s|
  {
    DistinctCard(Dedup(s));
    assert (set x: nat | x in Dedup(s)) == (set x: nat | x in s);
  }

  /** `Math.floor(Math.random() * 151) + 1` for each supplied draw. */
  function DrawsToIds(draws: seq<nat>): (ids: seq<nat>)
    ensures |ids| == |draws|
  {
    seq(|draws|, i requires 0 <= i < |draws| => draws[i] + 1)
  }

  /** Adding one to every element keeps the number of distinct values. */
  lemma {:induction false} DrawsToIdsDistinctValues(draws: seq<nat>)
    ensures |Dedup(DrawsToIds(draws))| == |Dedup(draws)|
  {
    if |draws| > 0 {
      var init := draws[..|draws| - 1];
      var last := draws[|draws| - 1];
      assert DrawsToIds(draws)[..|draws| - 1] == DrawsToIds(init);
      DrawsToIdsDistinctValues(init);
      assert last in Dedup(init) <==> last + 1 in Dedup(DrawsToIds(init)) by {
        if last in Dedup(init) {
          var i :| 0 <= i < |init| && init[i] == last;
          assert DrawsToIds(init)[i] == last + 1;
        }
        if last + 1 in Dedup(DrawsToIds(init)) {
          var i :| 0 <= i < |init| && DrawsToIds(init)[i] == last + 1;
          assert init[i] == last;
        }
      }
    }
  }

  /** Every distinct id lies in [1, 151] when every draw lies in [0, 151). */
  lemma DrawnIdsInRange(draws: seq<nat>)
    requires forall i :: 0 <= i < |draws| ==> draws[i] < 151
    ensures forall x :: x in Dedup(DrawsToIds(draws)) ==> 1 <= x <= 151
  {
    forall x | x in Dedup(DrawsToIds(draws)) ensures 1 <= x <= 151 {
      var i :| 0 <= i < |draws| && DrawsToIds(draws)[i] == x;
    }
  }

  /** Four distinct draws give four distinct ids. */
  lemma EnoughDistinctIds(draws: seq<nat>)
    requires |set r: nat | r in draws| >= 4
    ensures |Dedup(DrawsToIds(draws))| >= 4
  {
    DedupLength(draws);
    DrawsToIdsDistinctValues(draws);
  }

  /**
    The rejection loop. `draws` are the successive values of `Math.floor(Math.random() * 151)`;
    they must contain four distinct values, or the loop would not stop.
   */
  method DrawDistinctIds(draws: seq<nat>) returns (ids: seq<nat>)
    requires forall i :: 0 <= i < |draws| ==> draws[i] < 151
    requires |set r: nat | r in draws| >= 4
    ensures |Dedup(DrawsToIds(draws))| >= 4
    ensures |ids| == 4 && Distinct(ids)
    ensures forall i :: 0 <= i < |ids| ==> 1 <= ids[i] <= 151
    ensures ids == Dedup(DrawsToIds(draws))[..4]
  {
    var all := DrawsToIds(draws);
    EnoughDistinctIds(draws);
    DrawnIdsInRange(draws);
    assert all[..|all|] == all;
    ids := [];
    var k := 0;
    while |ids| < 4
      invariant k <= |draws|
      invariant ids == Dedup(all[..k])
      invariant |ids| <= 4
      invariant k < |draws| || |ids| >= 4
      decreases |draws| - k
    {
      var id := all[k];
      DedupStep(all, k);
      if id !in ids {
        ids := ids + [id];
      }
      k := k + 1;
    }
    DedupPrefix(all, k);
    forall i | 0 <= i < |ids| ensures 1 <= ids[i] <= 151 {
      assert ids[i] in Dedup(all);
    }
  }

  // ---------------------------------------------------------------------------
  // Requests and the all-or-nothing batch (lines 87-117)

  /** The `for (const id of randomIds)` loop: one request URL per id, in order. */
  method RequestUrls(ids: seq<nat>) returns (urls: seq<string>)
    ensures |urls| == |ids|
    ensures forall i :: 0 <= i < |ids| ==> urls[i] == PokemonUrl(ids[i])
    ensures Distinct(ids) ==> Distinct(urls)
  {
    urls := [];
    for i := 0 to |ids|
      invariant |urls| == i
      invariant forall j :: 0 <= j < i ==> urls[j] == PokemonUrl(ids[j])
    {
      urls := urls + [PokemonUrl(ids[i])];
    }
    if Distinct(ids) {
      forall i, j | 0 <= i < j < |urls| ensures urls[i] != urls[j] {
        if urls[i] == urls[j] {
          PokemonUrlInjective(ids[i], ids[j]);
        }
      }
    }
  }

  /** The record a request delivers: the status is not checked, only that the JSON parses. */
  function ParsedBody(o: FetchOutcome): Option<Pokemon> {
    if o.Responded? then o.json else None
  }

  /** `Promise.all` over the fetches and then over `response.json()`: every record, or failure. */
  function Gather(outcomes: seq<FetchOutcome>): (r: Option<seq<Pokemon>>)
    ensures r.Some? <==> forall i :: 0 <= i < |outcomes| ==> ParsedBody(outcomes[i]).Some?
    ensures r.Some? ==> |r.value| == |outcomes|
    ensures r.Some? ==> forall i :: 0 <= i < |outcomes| ==> ParsedBody(outcomes[i]) == Some(r.value[i])
  {
    if |outcomes| == 0 then Some([])
    else
      match (ParsedBody(outcomes[0]), Gather(outcomes[1..]))
      case (Some(d), Some(rest)) => Some([d] + rest)
      case _ => None
  }

  /**
    The batch ignores the status: two batches whose requests settle alike and whose
    bodies parse alike give the same result, whatever their `ok` flags.
   */
  lemma {:induction false} GatherIgnoresStatus(a: seq<FetchOutcome>, b: seq<FetchOutcome>)
    requires |a| == |b|
    requires forall i :: 0 <= i < |a| ==> a[i].Responded? == b[i].Responded?
    requires forall i :: 0 <= i < |a| && a[i].Responded? ==> a[i].json == b[i].json
    ensures Gather(a) == Gather(b)
  {
    if |a| > 0 {
      GatherIgnoresStatus(a[1..], b[1..]);
    }
  }

  /** The `.map` over the parsed records. */
  function NormalizeAll(data: seq<Pokemon>): (ps: seq<SimplePokemon>)
    ensures |ps| == |data|
    ensures forall i :: 0 <= i < |data| ==> ps[i] == NormalizeFeatured(data[i])
  {
    seq(|data|, i requires 0 <= i < |data| => NormalizeFeatured(data[i]))
  }

  // ---------------------------------------------------------------------------
  // The rendered card (lines 157-222)

  datatype FeaturedCardView = FeaturedCardView(
    href: string,
    ringColor: string,
    badgeColor: string,
    badgeText: string,
    title: string,
    image: Option<string>,
    chips: seq<TypeChip>,
    stats: CoreStats)

  /** The chips: one per type, in order, labelled with the capitalised type. */
  function TypeChips(types: seq<string>): (chips: seq<TypeChip>)
    ensures |chips| == |types|
  {
    seq(|types|, i requires 0 <= i < |types| => TypeChip(Capitalize(types[i]), GetTypeColor(types[i])))
  }

  /** The card: link, ring, id badge, title, chips and stat rows. */
  function RenderFeaturedCard(p: SimplePokemon): (v: FeaturedCardView)
    ensures v.href == DetailRoute(p.id) && v.badgeText == IdBadge(p.id)
    ensures IsHexColor(v.ringColor) && IsHexColor(v.badgeColor)
    ensures |p.types| > 0 ==> v.ringColor == GetTypeColor(p.types[0]) && v.badgeColor == GetTypeColorBg(p.types[0])
    ensures |v.chips| == |p.types|
    ensures forall i :: 0 <= i < |p.types| ==> v.chips[i].color == GetTypeColor(p.types[i])
    ensures forall i :: 0 <= i < |p.types| ==> v.chips[i].text == Capitalize(p.types[i])
    ensures v.title == p.name && v.image == p.image && v.stats == p.stats
  {
    var key := PrimaryTypeKey(p.types);
    FeaturedCardView(
      DetailRoute(p.id), GetTypeColor(key), GetTypeColorBg(key), IdBadge(p.id),
      p.name, p.image, TypeChips(p.types), p.stats)
  }

  /** A record without types gets the fallback ring and badge colours (`types[0]` is undefined). */
  lemma EmptyTypesUseFallback(p: SimplePokemon)
    requires |p.types| == 0
    ensures RenderFeaturedCard(p).ringColor == LightFallback
    ensures RenderFeaturedCard(p).badgeColor == DarkFallback
  {
    UndefinedIsUnknown();
  }

  /** The link's last segment and the badge's digits both read back as the id. */
  lemma FeaturedCardShowsId(p: SimplePokemon)
    ensures var v := RenderFeaturedCard(p);
      && v.href[..|RoutePrefix|] == RoutePrefix
      && v.badgeText[0] == '#'
      && v.badgeText[1..] == v.href[|RoutePrefix|..]
      && AllDigits(v.badgeText[1..])
      && DecimalValue(v.badgeText[1..]) == p.id
  {
    DetailRouteIdentifiesId(p.id);
    IdBadgeShowsId(p.id);
  }

  // ---------------------------------------------------------------------------
  // Component state (lines 65-123)

  /** The `featuredPokemon` and `loading` state of the `FeaturedPokemon` component. */
  class FeaturedPokemon {
    var featuredPokemon: seq<SimplePokemon>
    var loading: bool

    constructor ()
      ensures featuredPokemon == [] && loading
    {
      featuredPokemon := [];
      loading := true;
    }

    /**
      `fetchFeaturedPokemon`. `draws` are the random draws, `outcomes` what the four
      requests yield, in request order. Returns the ids requested.
     */
    method FetchFeaturedPokemon(draws: seq<nat>, outcomes: seq<FetchOutcome>) returns (ids: seq<nat>, urls: seq<string>)
      requires forall i :: 0 <= i < |draws| ==> draws[i] < 151
      requires |set r: nat | r in draws| >= 4
      requires |outcomes| == 4
      modifies this
      ensures |Dedup(DrawsToIds(draws))| >= 4
      ensures |ids| == 4 && Distinct(ids) && forall i :: 0 <= i < 4 ==> 1 <= ids[i] <= 151
      ensures ids == Dedup(DrawsToIds(draws))[..4]
      ensures |urls| == 4 && Distinct(urls) && forall i :: 0 <= i < 4 ==> urls[i] == PokemonUrl(ids[i])
      ensures Gather(outcomes).Some? ==> featuredPokemon == NormalizeAll(Gather(outcomes).value)
      ensures Gather(outcomes).None? ==> featuredPokemon == old(featuredPokemon)
      ensures !loading
    {
      ids := DrawDistinctIds(draws);
      urls := RequestUrls(ids);
      var batch := Gather(outcomes);
      if batch.Some? {
        featuredPokemon := NormalizeAll(batch.value);
      }
      loading := false;
    }
  }
}

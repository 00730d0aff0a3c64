/**
  components/common/PokemonCard/PokemonCard.tsx: its own copies of the two colour
  tables and the card it renders for one `SimplePokemon`.
 */
module PokemonCard {
  import opened Text
  import opened Records
  import opened Palette
  import FeaturedCard

  const LightFallback: string := "#A8A8A8"
  const DarkFallback: string := "#9E9E9E"

  const LightTypeColors: map<string, string> := map[
    "fire" := "#FF6B6B", "water" := "#4ECDC4", "electric" := "#FFD93D",
    "grass" := "#6BCF7F", "ice" := "#74C0FC", "fighting" := "#FF8787",
    "poison" := "#DA77F2", "ground" := "#FECA57", "flying" := "#74C0FC",
    "psychic" := "#FDA7DF", "bug" := "#82ca9d", "rock" := "#FDCB6E",
    "ghost" := "#A29BFE", "dragon" := "#6C5CE7", "dark" := "#636e72",
    "steel" := "#ddd", "fairy" := "#FD79A8", "normal" := "#A8A8A8"
  ]

  const DarkTypeColors: map<string, string> := map[
    "fire" := "#FF5722", "water" := "#2196F3", "electric" := "#FFC107",
    "grass" := "#4CAF50", "ice" := "#03A9F4", "fighting" := "#F44336",
    "poison" := "#9C27B0", "ground" := "#795548", "flying" := "#607D8B",
    "psychic" := "#E91E63", "bug" := "#8BC34A", "rock" := "#FF9800",
    "ghost" := "#673AB7", "dragon" := "#3F51B5", "dark" := "#424242",
    "steel" := "#9E9E9E", "fairy" := "#E91E63", "normal" := "#9E9E9E"
  ]

  /** The copied tables are entry for entry those of the featured section. */
  lemma TablesEqualFeaturedCard()
    ensures LightTypeColors == FeaturedCard.LightTypeColors
    ensures DarkTypeColors == FeaturedCard.DarkTypeColors
  {}

  /** `getTypeColor`: the light colour of a listed type, `#A8A8A8` for any other string. */
  function GetTypeColor(t: string): (c: string)
    ensures IsHexColor(c)
    ensures t in KnownTypes ==> t in LightTypeColors && c == LightTypeColors[t]
    ensures t !in KnownTypes ==> c == LightFallback
  {
    TablesEqualFeaturedCard();
    FeaturedCard.LightKeys();
    FeaturedCard.LightHex();
    LookupOr(LightTypeColors, t, LightFallback)
  }

  /** `getTypeColorBorder`: the dark colour of a listed type, `#9E9E9E` for any other string. */
  function GetTypeColorBorder(t: string): (c: string)
    ensures IsHexColor(c)
    ensures t in KnownTypes ==> t in DarkTypeColors && c == DarkTypeColors[t]
    ensures t !in KnownTypes ==> c == DarkFallback
  {
    TablesEqualFeaturedCard();
    FeaturedCard.DarkKeys();
    FeaturedCard.DarkHex();
    LookupOr(DarkTypeColors, t, DarkFallback)
  }

  /** The copies agree with the featured section's tables on every input. */
  lemma TablesAgreeWithFeaturedCard(t: string)
    ensures GetTypeColor(t) == FeaturedCard.GetTypeColor(t)
    ensures GetTypeColorBorder(t) == FeaturedCard.GetTypeColorBg(t)
  {
    TablesEqualFeaturedCard();
  }

  datatype CardView = CardView(
    borderColor: string,
    ringColor: string,
    badgeColor: string,
    badgeText: string,
    title: string,
    image: Option<string>,
    chips: seq<TypeChip>,
    stats: CoreStats)

  /** The chips: one per type, in order, labelled with the capitalised type. */
  function TypeChips(types: seq<string>): (chips: seq<TypeChip>)
    ensures |chips| == |types|
  {
    seq(|types|, i requires 0 <= i < |types| => TypeChip(Capitalize(types[i]), GetTypeColor(types[i])))
  }

  /** The card: dark border of the first type; ring and id badge in its light colour. */
  function RenderCard(p: SimplePokemon): (v: CardView)
    ensures IsHexColor(v.borderColor) && IsHexColor(v.ringColor)
    ensures v.badgeColor == v.ringColor
    ensures |p.types| > 0 ==> v.borderColor == GetTypeColorBorder(p.types[0]) && v.ringColor == GetTypeColor(p.types[0])
    ensures v.badgeText == IdBadge(p.id)
    ensures |v.chips| == |p.types|
    ensures forall i :: 0 <= i < |p.types| ==> v.chips[i].color == GetTypeColor(p.types[i])
    ensures forall i :: 0 <= i < |p.types| ==> v.chips[i].text == Capitalize(p.types[i])
    ensures v.title == p.name && v.image == p.image && v.stats == p.stats
  {
    var key := PrimaryTypeKey(p.types);
    CardView(
      GetTypeColorBorder(key), GetTypeColor(key), GetTypeColor(key), IdBadge(p.id),
      p.name, p.image, TypeChips(p.types), p.stats)
  }

  /** A record without types gets the fallback colours (`types[0]` is undefined). */
  lemma EmptyTypesUseFallback(p: SimplePokemon)
    requires |p.types| == 0
    ensures RenderCard(p).borderColor == DarkFallback
    ensures RenderCard(p).ringColor == LightFallback
  {
    UndefinedIsUnknown();
  }

  /** The badge reads back as the id: padding never truncates. */
  lemma BadgeShowsId(p: SimplePokemon)
    ensures RenderCard(p).badgeText[0] == '#'
    ensures AllDigits(RenderCard(p).badgeText[1..])
    ensures DecimalValue(RenderCard(p).badgeText[1..]) == p.id
  {
    IdBadgeShowsId(p.id);
  }

  /**
    The featured card shows the same chips and the same badge text as this card, but
    its badge is in the dark colour where this one uses the light colour.
   */
  lemma CardsAgreeExceptBadgeColor(p: SimplePokemon)
    ensures FeaturedCard.RenderFeaturedCard(p).chips == RenderCard(p).chips
    ensures FeaturedCard.RenderFeaturedCard(p).badgeText == RenderCard(p).badgeText
    ensures FeaturedCard.RenderFeaturedCard(p).ringColor == RenderCard(p).ringColor
    ensures FeaturedCard.RenderFeaturedCard(p).badgeColor == RenderCard(p).borderColor
  {
    var key := PrimaryTypeKey(p.types);
    TablesAgreeWithFeaturedCard(key);
    forall i | 0 <= i < |p.types|
      ensures FeaturedCard.RenderFeaturedCard(p).chips[i] == RenderCard(p).chips[i]
    {
      TablesAgreeWithFeaturedCard(p.types[i]);
    }
  }
}

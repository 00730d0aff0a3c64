/**
  app/page.tsx: the random lookup of the home page. One random id in [1, 1010], one
  request, the record normalised with a placeholder image, and the `pokemon` and
  `loading` state around it.
 */
module HomePage {
  import opened Text
  import opened Records
  import FeaturedCard

  /** The image used when the record has neither sprite. */
  const Placeholder: string := "/placeholder.png"
  /** The number of ids the random lookup draws from. */
  const IdCount: nat := 1010

  /** `official-artwork front_default || front_default || '/placeholder.png'` */
  function HomeImage(s: Sprites): string {
    if Truthy(s.officialArtwork) then s.officialArtwork.value
    else if Truthy(s.frontDefault) then s.frontDefault.value
    else Placeholder
  }

  /** The raw record as the home page stores it (lines 38-58). */
  function NormalizeHome(d: Pokemon): (p: SimplePokemon)
    ensures p.id == d.id
    ensures |p.name| == |d.name| && (|d.name| > 0 ==> p.name[0] == UpperChar(d.name[0]))
    ensures forall i :: 1 <= i < |d.name| ==> p.name[i] == d.name[i]
    ensures |p.types| == |d.types| && forall i :: 0 <= i < |d.types| ==> p.types[i] == d.types[i].typeName
    ensures p.stats.hp == StatOrZero(d.stats, "hp")
    ensures p.stats.attack == StatOrZero(d.stats, "attack")
    ensures p.stats.defense == StatOrZero(d.stats, "defense")
    ensures Truthy(p.image)
    ensures Truthy(d.sprites.officialArtwork) ==> p.image == d.sprites.officialArtwork
    ensures !Truthy(d.sprites.officialArtwork) && Truthy(d.sprites.frontDefault) ==> p.image == d.sprites.frontDefault
    ensures !Truthy(d.sprites.officialArtwork) && !Truthy(d.sprites.frontDefault) ==> p.image == Some(Placeholder)
  {
    SimplePokemon(d.id, Capitalize(d.name), Some(HomeImage(d.sprites)), TypeNames(d.types), CoreStatsOf(d.stats))
  }

  /**
    The home page and the featured section store the same record except for the image,
    and the images differ only when neither sprite is set: then the home page shows the
    placeholder and the featured section keeps the null or empty sprite.
   */
  lemma HomeAndFeaturedDifferOnlyInPlaceholder(d: Pokemon)
    ensures var h, f := NormalizeHome(d), FeaturedCard.NormalizeFeatured(d);
      && h.id == f.id && h.name == f.name && h.types == f.types && h.stats == f.stats
      && (h.image == f.image <==> Truthy(d.sprites.officialArtwork) || Truthy(d.sprites.frontDefault))
  {}

  /** The record a response delivers on this page: only an ok response whose body parses. */
  function Received(o: FetchOutcome): Option<Pokemon> {
    if o.Responded? && o.ok then o.json else None
  }

  /** The `pokemon` and `loading` state of the `Home` component. */
  class Home {
    var pokemon: Option<SimplePokemon>
    var loading: bool

    /** A stored record always has an image to show. */
    ghost predicate Valid()
      reads this
    {
      pokemon.Some? ==> Truthy(pokemon.value.image)
    }

    constructor ()
      ensures Valid() && pokemon == None && !loading
    {
      pokemon := None;
      loading := false;
    }

    /**
      The part of `fetchRandomPokemon` before the request: `setLoading(true)` and the id
      `Math.floor(Math.random() * 1010) + 1`, where `r` is the floored draw.
     */
    method BeginFetch(r: nat) returns (id: nat)
      requires r < IdCount
      modifies this`loading
      ensures loading && pokemon == old(pokemon)
      ensures 1 <= id <= IdCount && id == r + 1
    {
      loading := true;
      id := r + 1;
    }

    /**
      The part after the request: an ok response whose body parses replaces `pokemon`;
      a rejected fetch, a non-ok status or an unparsable body leaves it; `loading` ends false.
     */
    method CompleteFetch(outcome: FetchOutcome)
      requires Valid()
      modifies this
      ensures Valid()
      ensures Received(outcome).Some? ==> pokemon == Some(NormalizeHome(Received(outcome).value))
      ensures Received(outcome).None? ==> pokemon == old(pokemon)
      ensures !loading
    {
      match outcome {
        case Rejected =>
        case Responded(ok, json) =>
          if ok && json.Some? {
            pokemon := Some(NormalizeHome(json.value));
          }
      }
      loading := false;
    }

    /** `fetchRandomPokemon`: returns the id requested. */
    method FetchRandomPokemon(r: nat, outcome: FetchOutcome) returns (id: nat)
      requires r < IdCount
      requires Valid()
      modifies this
      ensures Valid()
      ensures 1 <= id <= IdCount && id == r + 1
      ensures Received(outcome).Some? ==> pokemon == Some(NormalizeHome(Received(outcome).value))
      ensures Received(outcome).None? ==> pokemon == old(pokemon)
      ensures !loading
    {
      id := BeginFetch(r);
      CompleteFetch(outcome);
    }
  }
}

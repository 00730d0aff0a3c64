# Pokédex front-end core, modelled in Dafny

A Next.js front-end over PokéAPI. This model covers the sequential logic inside its
components: the two 18-entry type-colour palettes with their fallbacks; the
normalisation of a raw PokéAPI record into a `SimplePokemon` (first matching stat or 0,
first-letter capitalisation, image preference chain, type names in order); the
`padStart(3, '0')` id used in badges and routes; the rejection loop that draws four
distinct featured ids from [1, 151]; the all-or-nothing featured batch; the home
page's random lookup; and the search form's state machine.

Modules, one per source file, plus shared pieces:

- `Text` (text.dfy): JavaScript `trim` over the full ECMAScript white-space set, ASCII
  `toLowerCase`/`toUpperCase`, `toString` of a non-negative integer, `padStart` and the
  padded id, with round-trip lemmas (the padded id reads back as the id).
- `Records` (records.dfy): the record shapes of app/types/pokemon.ts, the outcome of a
  request, `find(...)?.base_stat || 0`, request URLs and detail routes.
- `Palette` (palette.dfy): the 18 known type names, the hex-colour shape,
  `table[key] || fallback`, and the JavaScript `types[0]` key of an empty list.
- `FeaturedCard` (featured_card.dfy), `PokemonCard` (pokemon_card.dfy),
  `HomePage` (home_page.dfy), `Search` (search_bar.dfy): the four components. Their
  state is a class each: `FeaturedPokemon`, `Home` and `SearchBar`.

Requests are not made. What a request yields is a parameter, a `FetchOutcome`: the
fetch rejected, or a response with its `ok` flag and its parsed JSON (or none when
`response.json()` fails). Random numbers are parameters too: the floored draw `r` of
`Math.floor(Math.random() * N)`. `router.push` is recorded in the `route` field.
The home page's and the search form's `async` handlers are each split at their `await`
into a begin and a finish method, and a third method runs both in sequence. The featured
section's `fetchFeaturedPokemon` is one method that takes every request's outcome at once.

Three behaviours of the code are easy to misread:

- The featured section has no placeholder image. A record with neither sprite is stored
  with a null or empty image, although `SimplePokemon` (app/types/pokemon.ts:211)
  declares `image: string` (`FeaturedImageCanBeMissing`).
- The featured section does not check `response.ok`. A non-ok response fails the batch
  only if its body does not parse as a record (`GatherIgnoresStatus`).
- Padding is to at least three digits, not exactly three: 1010 stays "1010".

## Model

| member | source | states |
|---|---|---|
| `Text.TrimStart` | components/common/SearchBar/SearchBar.tsx:24 | the result is the suffix of the input after its leading white-space run, and does not start with white space |
| `Text.TrimEnd` | components/common/SearchBar/SearchBar.tsx:24 | the result is the prefix of the input before its trailing white-space run, and does not end with white space |
| `Text.Trim` | components/common/SearchBar/SearchBar.tsx:24 | `trim()` is empty exactly when every character is white space; otherwise it starts and ends with a non-white-space character |
| `Text.TrimRemovesEnds` | components/common/SearchBar/SearchBar.tsx:24 | `trim()` is a slice of the input with only white space before it and only white space after it |
| `Text.TrimIdempotent` | components/common/SearchBar/SearchBar.tsx:24 | trimming twice is trimming once |
| `Text.Lower` | components/common/SearchBar/SearchBar.tsx:34 | `toLowerCase()` keeps the length and maps each character by itself: an ASCII capital to its lower-case letter, anything else to itself |
| `Text.LowerHasNoCapital` | components/common/SearchBar/SearchBar.tsx:34 | a lower-cased string holds no ASCII capital |
| `Text.TrimLowerCommute` | components/common/SearchBar/SearchBar.tsx:34 | lower-casing then trimming equals trimming then lower-casing |
| `Text.Capitalize` | app/page.tsx:48 | `charAt(0).toUpperCase() + slice(1)` keeps the length and every character after the first; a lower-case first letter becomes its own capital (code point minus 32), any other first character stays |
| `Text.CapitalizeChangesOnlyFirst` | app/page.tsx:48 | a name whose first character is not a lower-case ASCII letter (or an empty name) is returned unchanged |
| `Text.CapitalizeIdempotent` | app/page.tsx:48 | capitalising an already capitalised name changes nothing |
| `Text.CapitalizeExamples` | app/page.tsx:48 | "bulbasaur" becomes "Bulbasaur"; "Pikachu" and "" are unchanged |
| `Text.NatToDecimal` | components/common/FeaturedCard/FeaturedCard.tsx:159 | `id.toString()` is a non-empty string of decimal digits without a leading zero |
| `Text.DecimalRoundTrip` | components/common/FeaturedCard/FeaturedCard.tsx:159 | the decimal string of `n` reads back as `n` |
| `Text.DecimalInjective` | components/common/FeaturedCard/FeaturedCard.tsx:88 | distinct numbers have distinct decimal strings |
| `Text.DecimalLength` | components/common/PokemonCard/PokemonCard.tsx:97 | the decimal form of `n` has at most `k` digits exactly when `n < 10^k` |
| `Text.PadStart` | components/common/PokemonCard/PokemonCard.tsx:97 | `padStart(width, fill)` has length max(width, input length), ends with the input, and is `fill` before it |
| `Text.LeadingZeros` | components/common/PokemonCard/PokemonCard.tsx:97 | zeros in front of a decimal string do not change its value |
| `Text.PadId` | components/common/PokemonCard/PokemonCard.tsx:97 | the padded id is all decimal digits |
| `Text.PadIdRoundTrip` | components/common/PokemonCard/PokemonCard.tsx:97 | the padded id reads back as the id: padding never truncates or loses information |
| `Text.PadIdInjective` | components/common/FeaturedCard/FeaturedCard.tsx:159-160 | distinct ids get distinct padded ids, and so distinct card links |
| `Text.PadIdLength` | components/common/PokemonCard/PokemonCard.tsx:97 | below 1000 the padded id has exactly 3 characters; from 1000 on it is the plain decimal form, longer than 3 |
| `Text.PadIdExamples` | components/common/PokemonCard/PokemonCard.tsx:97 | 7 gives "007", 25 gives "025", 151 gives "151", 1010 gives "1010" |
| `Records.FirstStatIndex` | app/page.tsx:38-43 | `find` stops at the first stat with the name: no earlier entry has it, and the found one does; `|stats|` when none does |
| `Records.StatOrZero` | app/page.tsx:38-43 | the value is the `base_stat` of the first entry with the name, and 0 when no entry has it |
| `Records.CoreStatsFallback` | components/common/FeaturedCard/FeaturedCard.tsx:105-113 | hp, attack and defense are each the first matching `base_stat` or 0, and are non-negative when the raw stats are |
| `Records.TypeNames` | app/page.tsx:52 | one type name per type entry, in the same order |
| `Records.PokemonUrl` | components/common/FeaturedCard/FeaturedCard.tsx:88 | the request URL is the API base followed by the plain, unpadded decimal id, whose digits read back as the id |
| `Records.PokemonUrlInjective` | components/common/FeaturedCard/FeaturedCard.tsx:88 | distinct ids are requested from distinct URLs |
| `Records.DetailRoute` | components/common/SearchBar/SearchBar.tsx:48-51 | the detail route starts with `/pokemon/` and has at least three characters after it |
| `Records.DetailRouteIdentifiesId` | components/common/SearchBar/SearchBar.tsx:48-51 | the route starts with `/pokemon/` and its last segment is digits that read back as the id |
| `Records.IdBadge` | components/common/PokemonCard/PokemonCard.tsx:97 | the id badge starts with `#`; it has exactly 4 characters below id 1000, and from 1000 on it is `#` and the untruncated decimal id |
| `Records.IdBadgeShowsId` | components/common/FeaturedCard/FeaturedCard.tsx:159-189 | the badge digits are the detail route's last segment and read back as the id |
| `Records.DetailRouteInjective` | components/common/FeaturedCard/FeaturedCard.tsx:159 | distinct ids never share a detail route |
| `Palette.UndefinedIsUnknown` | components/common/PokemonCard/PokemonCard.tsx:69 | the key that `types[0]` of an empty list becomes, "undefined", is not a listed type |
| `Palette.PrimaryTypeKey` | components/common/PokemonCard/PokemonCard.tsx:69 | the key `types[0]` looks up is the first type, and for an empty list a key that is not a listed type |
| `FeaturedCard.GetTypeColor` | components/common/FeaturedCard/FeaturedCard.tsx:11-34 | each of the 18 listed types gets its light table colour, every other string `#A8A8A8`; the result is always a hex colour |
| `FeaturedCard.GetTypeColorBg` | components/common/FeaturedCard/FeaturedCard.tsx:37-60 | each listed type gets its dark table colour, every other string `#9E9E9E`; always a hex colour |
| `FeaturedCard.LightKeys` | components/common/FeaturedCard/FeaturedCard.tsx:12-31 | the light table lists exactly the 18 known types |
| `FeaturedCard.DarkKeys` | components/common/FeaturedCard/FeaturedCard.tsx:38-57 | the dark table lists exactly the 18 known types |
| `FeaturedCard.LightHex` | components/common/FeaturedCard/FeaturedCard.tsx:12-31 | every light table entry is a `#rgb` or `#rrggbb` colour |
| `FeaturedCard.DarkHex` | components/common/FeaturedCard/FeaturedCard.tsx:38-57 | every dark table entry is a `#rgb` or `#rrggbb` colour |
| `FeaturedCard.UnknownLikeNormal` | components/common/FeaturedCard/FeaturedCard.tsx:33-59 | any unlisted type is drawn in the same two colours as "normal" |
| `FeaturedCard.NormalizeFeatured` | components/common/FeaturedCard/FeaturedCard.tsx:99-114 | same id; name capitalised on the first character only; type names in order; each stat the first match or 0; image the artwork if set, otherwise `front_default` as it is (possibly null) |
| `FeaturedCard.NormalizeAll` | components/common/FeaturedCard/FeaturedCard.tsx:99-114 | one normalised record per parsed record, in request order |
| `FeaturedCard.FeaturedImageCanBeMissing` | components/common/FeaturedCard/FeaturedCard.tsx:102-103 | the stored image is null or empty exactly when neither sprite is set: there is no placeholder |
| `FeaturedCard.Dedup` | components/common/FeaturedCard/FeaturedCard.tsx:78-84 | the list of distinct values holds the same values as its input, each once |
| `FeaturedCard.DedupStep` | components/common/FeaturedCard/FeaturedCard.tsx:80-83 | one more draw extends the list of distinct ids exactly when it is not already in it |
| `FeaturedCard.DedupPrefix` | components/common/FeaturedCard/FeaturedCard.tsx:78-84 | the ids collected from a prefix of the draws are a prefix of those collected from all draws: earlier ids are never reordered or dropped |
| `FeaturedCard.DistinctCard` | components/common/FeaturedCard/FeaturedCard.tsx:78-84 | a duplicate-free list is as long as its set of values |
| `FeaturedCard.DedupLength` | components/common/FeaturedCard/FeaturedCard.tsx:78-84 | the list of distinct values is as long as the set of values drawn |
| `FeaturedCard.DrawsToIdsDistinctValues` | components/common/FeaturedCard/FeaturedCard.tsx:79 | adding 1 to each draw keeps the number of distinct values |
| `FeaturedCard.DrawnIdsInRange` | components/common/FeaturedCard/FeaturedCard.tsx:79 | draws in [0, 151) give ids in [1, 151] |
| `FeaturedCard.EnoughDistinctIds` | components/common/FeaturedCard/FeaturedCard.tsx:78-84 | four distinct draws give at least four distinct ids, so the loop can stop |
| `FeaturedCard.DrawDistinctIds` | components/common/FeaturedCard/FeaturedCard.tsx:78-84 | the loop ends with exactly 4 pairwise distinct ids in [1, 151]: the first four distinct draws plus 1, in order of first occurrence |
| `FeaturedCard.RequestUrls` | components/common/FeaturedCard/FeaturedCard.tsx:87-89 | one request URL per id, in id order; distinct ids give distinct URLs |
| `FeaturedCard.Gather` | components/common/FeaturedCard/FeaturedCard.tsx:92-96 | the batch succeeds exactly when every request's body parses, and then holds every record in request order |
| `FeaturedCard.GatherIgnoresStatus` | components/common/FeaturedCard/FeaturedCard.tsx:92-96 | two batches whose requests settle alike and whose bodies parse alike give the same result, whatever their `ok` flags |
| `FeaturedCard.RenderFeaturedCard` | components/common/FeaturedCard/FeaturedCard.tsx:157-223 | link is the detail route and the badge the id badge; ring in the light and badge in the dark colour of the first type; one chip per type, in order, capitalised, in its light colour |
| `FeaturedCard.EmptyTypesUseFallback` | components/common/FeaturedCard/FeaturedCard.tsx:168-185 | a record without types gets the fallback ring and badge colours |
| `FeaturedCard.FeaturedCardShowsId` | components/common/FeaturedCard/FeaturedCard.tsx:159-189 | the badge digits equal the link's last segment and read back as the id |
| `FeaturedCard.FeaturedPokemon.constructor` | components/common/FeaturedCard/FeaturedCard.tsx:65-67 | no records and `loading` true at mount |
| `FeaturedCard.FeaturedPokemon.FetchFeaturedPokemon` | components/common/FeaturedCard/FeaturedCard.tsx:70-124 | requests 4 distinct ids in [1, 151] from 4 distinct URLs, one per id; `featuredPokemon` becomes the 4 normalised records if every body parses, otherwise keeps its old value; `loading` ends false |
| `PokemonCard.GetTypeColor` | components/common/PokemonCard/PokemonCard.tsx:12-35 | each listed type gets its light colour, every other string `#A8A8A8`; always a hex colour |
| `PokemonCard.GetTypeColorBorder` | components/common/PokemonCard/PokemonCard.tsx:38-61 | each listed type gets its dark colour, every other string `#9E9E9E`; always a hex colour |
| `PokemonCard.TablesEqualFeaturedCard` | components/common/PokemonCard/PokemonCard.tsx:13-59 | the copied tables equal the featured section's, key for key and colour for colour |
| `PokemonCard.TablesAgreeWithFeaturedCard` | components/common/PokemonCard/PokemonCard.tsx:12-61 | the copied tables agree with the featured section's `getTypeColor` and `getTypeColorBg` on every input |
| `PokemonCard.RenderCard` | components/common/PokemonCard/PokemonCard.tsx:64-138 | border in the dark and ring and badge in the light colour of the first type; badge the id badge; one chip per type, in order, capitalised, in its light colour |
| `PokemonCard.EmptyTypesUseFallback` | components/common/PokemonCard/PokemonCard.tsx:69-93 | a record without types gets the fallback border and ring colours |
| `PokemonCard.BadgeShowsId` | components/common/PokemonCard/PokemonCard.tsx:97 | the badge is `#` followed by digits that read back as the id |
| `PokemonCard.CardsAgreeExceptBadgeColor` | components/common/PokemonCard/PokemonCard.tsx:69-97 | the featured card shows the same chips, badge text and ring, but colours its badge with the dark colour this card uses for its border |
| `HomePage.NormalizeHome` | app/page.tsx:38-58 | same id; name capitalised on the first character only; types in order; each stat the first match or 0; the image is never empty: artwork, then `front_default`, then `/placeholder.png` |
| `HomePage.HomeAndFeaturedDifferOnlyInPlaceholder` | app/page.tsx:49-51 | the home page and the featured section store the same record, except that their images differ exactly when neither sprite is set |
| `HomePage.Home.constructor` | app/page.tsx:15-17 | no record and not loading at first |
| `HomePage.Home.BeginFetch` | app/page.tsx:21-24 | `loading` becomes true and the id requested is the draw plus 1, in [1, 1010] |
| `HomePage.Home.CompleteFetch` | app/page.tsx:27-67 | an ok response whose body parses replaces `pokemon` with the normalised record; anything else keeps it; `loading` ends false; a stored record always has an image |
| `HomePage.Home.FetchRandomPokemon` | app/page.tsx:20-68 | the id is in [1, 1010]; `pokemon` changes only on an ok, parsed response; `loading` ends false whatever the outcome |
| `Search.QueryOf` | components/common/SearchBar/SearchBar.tsx:34 | the query is the trimmed term lower-cased, and is empty exactly when the term is blank |
| `Search.QueryHasNoCapital` | components/common/SearchBar/SearchBar.tsx:34 | the query holds no ASCII capital |
| `Search.ResolvedRoute` | components/common/SearchBar/SearchBar.tsx:40-51 | a route exists exactly for an ok response whose body parses; it is the detail route of the returned id: `/pokemon/` and the id padded to at least three digits, which read back as the id |
| `Search.SearchBar.constructor` | components/common/SearchBar/SearchBar.tsx:11-15 | empty term, not loading, no error, no navigation |
| `Search.SearchBar.SubmitDisabled` | components/common/SearchBar/SearchBar.tsx:87 | the button is disabled exactly when loading or when the term is only white space |
| `Search.SearchBar.HandleInputChange` | components/common/SearchBar/SearchBar.tsx:63-66 | the term becomes the new value and the error is cleared; nothing else changes |
| `Search.SearchBar.BeginSearch` | components/common/SearchBar/SearchBar.tsx:24-34 | a blank term sets the validation message, sends nothing and leaves `loading`; otherwise `loading` is true, the error cleared, and the non-empty query is the lower-cased trimmed term |
| `Search.SearchBar.FinishSearch` | components/common/SearchBar/SearchBar.tsx:36-59 | an ok, parsed response navigates to the padded route of its id; a rejected fetch, a non-ok status or an unparsable body sets the not-found message and does not navigate; `loading` ends false |
| `Search.SearchBar.HandleSearch` | components/common/SearchBar/SearchBar.tsx:20-60 | the whole submission: validation, query, navigation or not-found message, and `loading` false after every submission that got past validation |

## Left out

- Requests, `response.json()` and PokéAPI itself: each request's result is a parameter.
- `Promise.all`'s concurrency: the batch is a sequence of outcomes with all-or-nothing semantics.
- `Math.random` and its floating-point arithmetic: the floored draws are parameters. The featured loop needs draws with four distinct values, which is its precondition; the loop would not stop otherwise.
- Bodies that parse but are not records, or records that would make the mapping throw (a missing `sprites.other`, `stats` or `types`): a response body here either is a well-formed record or counts as unparsable.
- JSX rendering, CSS modules, `next/image` and `next/link`: only the values a card computes (colours, texts, link) are modelled, and `router.push` is a recorded route.
- The loading placeholders of the featured section and the disabled state of the random button and the search input: they only render the `loading` flag.
- `console.error` logging.
- Interleaving: a handler's begin and finish are separate methods, but what other events may happen between them is not modelled.
- app/pokemon/[id]/, Navbar.tsx, Footer.tsx and layout.tsx are not part of this model.
- Numbers: `id` is a non-negative integer and `base_stat` an integer; fractional, negative or NaN values are not modelled.
- Text.NatToDecimal: gives plain decimal digits for every integer, while JavaScript's `toString` switches to exponent form from 1e21 on (`"1e+21"`) and integers above 2^53 are not exact; real ids are far below both.
- Text.PadIdLength: the same limit as Text.NatToDecimal, for ids from 1e21 on.
- Text.Lower: only ASCII letters are lower-cased, while JavaScript's `toLowerCase` also maps other letters.
- Text.Capitalize: only an ASCII first letter is upper-cased, while JavaScript's `toUpperCase` also maps other letters, sometimes to two characters.
- FeaturedCard.GetTypeColor: treats every unlisted string as unknown, while in JavaScript keys inherited from `Object.prototype` (such as "constructor") return a function; type names from the API never are such keys.
- FeaturedCard.GetTypeColorBg: the same inherited-key case as FeaturedCard.GetTypeColor.
- PokemonCard.GetTypeColor: the same inherited-key case as FeaturedCard.GetTypeColor.
- PokemonCard.GetTypeColorBorder: the same inherited-key case as FeaturedCard.GetTypeColor.

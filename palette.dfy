/**
  What the two card components share about type colours: the 18 type names their
  tables list, the shape of a CSS hex colour, the JavaScript lookup
  `typeColors[type] || fallback`, and the type chip.
 */
module Palette {

  /** The type names both colour tables list. */
  const KnownTypes: set<string> := {
    "fire", "water", "electric", "grass", "ice", "fighting", "poison", "ground", "flying",
    "psychic", "bug", "rock", "ghost", "dragon", "dark", "steel", "fairy", "normal"
  }

  predicate IsHexDigit(c: char) {
    ('0' <= c <= '9') || ('a' <= c <= 'f') || ('A' <= c <= 'F')
  }

  /** A CSS colour `#rgb` or `#rrggbb`. */
  predicate IsHexColor(c: string) {
    && (|c| == 4 || |c| == 7)
    && c[0] == '#'
    && IsHexDigit(c[1]) && IsHexDigit(c[2]) && IsHexDigit(c[3])
    && (|c| == 7 ==> IsHexDigit(c[4]) && IsHexDigit(c[5]) && IsHexDigit(c[6]))
  }

  /** `table[key] || fallback`: a missing key or an empty entry gives the fallback. */
  function LookupOr(table: map<string, string>, key: string, fallback: string): string {
    if key in table && table[key] != "" then table[key] else fallback
  }

  /**
    The key `types[0]` stands for in `getTypeColor(pokemon.types[0])`: on an empty list
    `types[0]` is `undefined`, which as a property key is the string "undefined".
   */
  function PrimaryTypeKey(types: seq<string>): (key: string)
    ensures |types| > 0 ==> key == types[0]
    ensures |types| == 0 ==> key !in KnownTypes
  {
    if |types| > 0 then types[0] else "undefined"
  }

  lemma UndefinedIsUnknown()
    ensures "undefined" !in KnownTypes
  {}

  /** One type chip: its label and its background colour. */
  datatype TypeChip = TypeChip(text: string, color: string)
}

/**
 * The two enumerations of src/concepts.ts: calculation methods and the Asr
 * shadow factor.
 */
module Concepts {

  /**
   * A calculation method is a TypeScript string enum, so at run time it is
   * its string token. Any string can reach the calculators (the type is
   * erased), which is why the angle tables keep a default branch.
   */
  type Method = string

  const MWL: Method := "mwl"
  const MuslimWorldLeague: Method := "mwl"
  const ISNA: Method := "isna"
  const IslamicSocietyOfNorthAmerica: Method := "isna"
  const EGYPT: Method := "egypt"
  const EgyptianGeneralAuthorityOfSurvey: Method := "egypt"
  const MAKKAH: Method := "makkah"
  const UmmAlQuraUniversityMakkah: Method := "makkah"
  const KARACHI: Method := "karachi"
  const UniversityOfIslamicSciencesKarachi: Method := "karachi"
  const TEHRAN: Method := "tehran"
  const InstituteOfGeophysicsUniversityOfTehran: Method := "tehran"

  /** The six canonical tokens, in declaration order. */
  const Tokens: seq<Method> := [MWL, ISNA, EGYPT, MAKKAH, KARACHI, TEHRAN]

  /** The long-form names, aligned with `Tokens`. */
  const Aliases: seq<Method> := [
    MuslimWorldLeague, IslamicSocietyOfNorthAmerica, EgyptianGeneralAuthorityOfSurvey,
    UmmAlQuraUniversityMakkah, UniversityOfIslamicSciencesKarachi,
    InstituteOfGeophysicsUniversityOfTehran]

  /** The numeric enum `AsrFactor`: shadow length as a multiple of the object's height. */
  datatype AsrFactor = One | Two {

    /** The enum member's numeric value. */
    function Value(): (v: int)
      ensures v == 1 <==> this == One
      ensures v == 2 <==> this == Two
    {
      match this
      case One => 1
      case Two => 2
    }
  }

  /** Every long-form alias is the same token as its short name. */
  lemma AliasesAreTokens()
    ensures |Aliases| == |Tokens|
    ensures forall i :: 0 <= i < |Tokens| ==> Aliases[i] == Tokens[i]
  {
  }

  /** The six canonical tokens are pairwise distinct. */
  lemma TokensDistinct()
    ensures |Tokens| == 6
    ensures forall i, j :: 0 <= i < j < |Tokens| ==> Tokens[i] != Tokens[j]
  {
  }

  /** `AsrFactor` has exactly two members, valued 1 and 2. */
  lemma AsrFactorMembers()
    ensures forall f: AsrFactor :: f.Value() == 1 || f.Value() == 2
    ensures One.Value() == 1 && Two.Value() == 2
  {
  }
}

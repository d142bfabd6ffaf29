/** Length codes rendered as a character-count range and as a short description. */
module MapLength {
  import opened LetterTypes

  const ShortRange := "약 100-200자"
  const MediumRange := "약 300-500자"
  const LongRange := "약 700-1000자"

  /** `mapLengthToCharCount`: a switch on the code whose default is the medium range. */
  function MapLengthToCharCount(length: string): (r: string)
    ensures r == ShortRange || r == MediumRange || r == LongRange
  {
    if length == "short" then ShortRange
    else if length == "medium" then MediumRange
    else if length == "long" then LongRange
    else MediumRange
  }

  /** `mapLengthToDescription`: the same switch over three fixed phrases. */
  function MapLengthToDescription(length: string): (r: string)
    ensures r == "핵심만 간단히" || r == "적당한 분량" || r == "자세하고 풍부한 내용"
  {
    if length == "short" then "핵심만 간단히"
    else if length == "medium" then "적당한 분량"
    else if length == "long" then "자세하고 풍부한 내용"
    else "적당한 분량"
  }

  /** The three codes get three different ranges; any other text gets the medium one. */
  lemma CharCountTable(s: string)
    ensures MapLengthToCharCount(LengthCode(Short)) == ShortRange
    ensures MapLengthToCharCount(LengthCode(Medium)) == MediumRange
    ensures MapLengthToCharCount(LengthCode(Long)) == LongRange
    ensures ParseLength(s).None? ==> MapLengthToCharCount(s) == MediumRange
    ensures ShortRange != MediumRange && MediumRange != LongRange && ShortRange != LongRange
  {
  }

  /** The descriptions follow the same table, default included. */
  lemma DescriptionTable(s: string)
    ensures MapLengthToDescription(LengthCode(Short)) == "핵심만 간단히"
    ensures MapLengthToDescription(LengthCode(Medium)) == "적당한 분량"
    ensures MapLengthToDescription(LengthCode(Long)) == "자세하고 풍부한 내용"
    ensures ParseLength(s).None? ==> MapLengthToDescription(s) == "적당한 분량"
  {
  }
}

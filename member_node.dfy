/**
 * The card the interactive canvas draws for a member: the age line, the
 * colour scheme and placeholder avatar chosen by gender, and the deceased
 * marker. Dates enter as their calendar years, read by the caller; a text
 * field holding "" is an absent one.
 */
module MemberNode {
  import opened Wrappers
  import Flow
  import Text

  /** Age in whole years: the difference of calendar years, month and day ignored. */
  function Age(birthYear: int, endYear: int): int {
    endYear - birthYear
  }

  /**
   * The age line: empty without a date of birth; `(N years)` for a member with
   * a date of death, counting to the year of death; `Age N` otherwise,
   * counting to the current year.
   */
  function AgeText(d: Flow.NodeData, birthYear: int, deathYear: int, currentYear: int): (r: string)
    ensures d.dateOfBirth == "" ==> r == ""
    ensures d.dateOfBirth != "" ==> r != ""
    ensures d.dateOfBirth != "" && d.dateOfDeath != "" ==> |r| >= 9 && r[0] == '(' && r[|r| - 7..] == " years)"
    ensures d.dateOfBirth != "" && d.dateOfDeath == "" ==> |r| >= 5 && r[..4] == "Age "
  {
    if d.dateOfBirth == "" then ""
    else
      var end := if d.dateOfDeath != "" then deathYear else currentYear;
      var age := Age(birthYear, end);
      if d.dateOfDeath != "" then "(" + Text.IntToString(age) + " years)"
      else "Age " + Text.IntToString(age)
  }

  /**
   * The age can be read back from the age line: the years between birth and
   * death for the dead, between birth and now for the living.
   */
  lemma AgeTextReadsBack(d: Flow.NodeData, birthYear: int, deathYear: int, currentYear: int)
    requires d.dateOfBirth != ""
    ensures var r := AgeText(d, birthYear, deathYear, currentYear);
      if d.dateOfDeath != "" then
        |r| >= 9 && Text.ParseInt(r[1..|r| - 7]) == deathYear - birthYear
      else
        |r| >= 5 && Text.ParseInt(r[4..]) == currentYear - birthYear
  {
    var r := AgeText(d, birthYear, deathYear, currentYear);
    if d.dateOfDeath != "" {
      var s := Text.IntToString(deathYear - birthYear);
      assert r[1..|r| - 7] == s;
      Text.ParseIntToString(deathYear - birthYear);
    } else {
      var s := Text.IntToString(currentYear - birthYear);
      assert r[4..] == s;
      Text.ParseIntToString(currentYear - birthYear);
    }
  }

  /** The deceased marker is shown exactly for a member with a date of death. */
  predicate ShowsDeceased(d: Flow.NodeData) {
    d.dateOfDeath != ""
  }

  /** For a member with a date of birth, the marker and the bracketed age line go together. */
  lemma DeceasedMatchesAgeText(d: Flow.NodeData, birthYear: int, deathYear: int, currentYear: int)
    requires d.dateOfBirth != ""
    ensures ShowsDeceased(d) <==> AgeText(d, birthYear, deathYear, currentYear)[0] == '('
  {
  }

  /** The three ways the card tells genders apart. */
  datatype Tone = Blue | Pink | Gray

  /** The classification: exactly "male", exactly "female", or anything else. */
  function ToneOf(gender: string): (t: Tone)
    ensures t == Blue <==> gender == "male"
    ensures t == Pink <==> gender == "female"
  {
    if gender == "male" then Blue else if gender == "female" then Pink else Gray
  }

  /** The card's border and background classes for a gender. */
  function GenderStyle(gender: string): string {
    match gender
    case "male" => "border-blue-300 bg-blue-50"
    case "female" => "border-pink-300 bg-pink-50"
    case _ => "border-gray-300 bg-gray-50"
  }

  /** The placeholder shown when the member has no photo URL. */
  function PlaceholderAvatar(gender: string): string {
    if gender == "male" then "👨" else if gender == "female" then "👩" else "👤"
  }

  function StyleOfTone(t: Tone): string {
    match t
    case Blue => "border-blue-300 bg-blue-50"
    case Pink => "border-pink-300 bg-pink-50"
    case Gray => "border-gray-300 bg-gray-50"
  }

  function AvatarOfTone(t: Tone): string {
    match t
    case Blue => "👨"
    case Pink => "👩"
    case Gray => "👤"
  }

  /**
   * The colour scheme and the placeholder follow the same three-way split, and
   * each tone has its own scheme and its own avatar.
   */
  lemma GenderSplitShared(gender: string, other: string)
    ensures GenderStyle(gender) == StyleOfTone(ToneOf(gender))
    ensures PlaceholderAvatar(gender) == AvatarOfTone(ToneOf(gender))
    ensures GenderStyle(gender) == GenderStyle(other) <==> ToneOf(gender) == ToneOf(other)
    ensures PlaceholderAvatar(gender) == PlaceholderAvatar(other) <==> ToneOf(gender) == ToneOf(other)
  {
  }

  /** What the photo circle shows. */
  datatype Picture = Image(url: string) | Placeholder(avatar: string)

  /** The photo when it has a non-empty URL, the gender's placeholder otherwise. */
  function PictureOf(d: Flow.NodeData): (p: Picture)
    ensures p.Image? <==> d.photo.Some? && d.photo.value.url != ""
    ensures p.Image? ==> p.url == d.photo.value.url
    ensures p.Placeholder? ==> p.avatar == AvatarOfTone(ToneOf(d.gender))
  {
    GenderSplitShared(d.gender, d.gender);
    if d.photo.Some? && d.photo.value.url != "" then Image(d.photo.value.url)
    else Placeholder(PlaceholderAvatar(d.gender))
  }
}

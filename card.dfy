/**
 * The landing page's building card: the count wording, the facility
 * badges with their overflow badge, the category icon and the floors line.
 */
module Card {
  import opened Base

  /** `pluralize`: the number, a space, the word with an `s` unless the number is one, and a space. */
  function Pluralize(n: nat, word: string): string
  {
    NatToString(n) + " " + word + (if n == 1 then "" else "s") + " "
  }

  /**
   * The text starts with the number as written and then the word, reads
   * back as the number, ends in a space, and is one character longer
   * exactly when the plural `s` is added.
   */
  lemma PluralizeSpec(n: nat, word: string)
    ensures StartsWith(Pluralize(n, word), NatToString(n) + " " + word)
    ensures EndsWith(Pluralize(n, word), " ")
    ensures ParseDigits(Pluralize(n, word)[..|NatToString(n)|]) == n
    ensures |Pluralize(n, word)| == |NatToString(n)| + |word| + 2 + (if n == 1 then 0 else 1)
  {
    var d := NatToString(n);
    var text := Pluralize(n, word);
    var rest := " " + word + (if n == 1 then "" else "s") + " ";
    assert text == d + rest;
    assert text[..|d + " " + word|] == d + " " + word;
    assert text[..|d|] == d;
    ParseNatToString(n);
  }

  /** A rendered facility badge: the facility itself, or the overflow count. */
  datatype Badge = FacilityName(name: string) | Overflow(text: string)

  /**
   * `FacilityBadge`: when not showing all, the badge in third place
   * reads "+N more" for the facilities past the second, and later ones render nothing.
   */
  function FacilityBadge(facility: string, index: nat, total: nat, showAll: bool): Option<Badge>
  {
    if !showAll && index >= 2 then
      if index == 2 then Some(Overflow("+" + IntToString(total - 2) + " more")) else None
    else Some(FacilityName(facility))
  }

  /** The badges of the facilities list, nothing rendered for a `null` badge. */
  function Badges(facilities: seq<string>, showAll: bool): (r: seq<Badge>)
  {
    BadgesFrom(facilities, 0, showAll)
  }

  function BadgesFrom(facilities: seq<string>, from: nat, showAll: bool): seq<Badge>
    requires from <= |facilities|
    decreases |facilities| - from
  {
    if from == |facilities| then []
    else
      var b := FacilityBadge(facilities[from], from, |facilities|, showAll);
      (if b.Some? then [b.value] else []) + BadgesFrom(facilities, from + 1, showAll)
  }

  /** With `showAll` every facility has its badge, in order. */
  lemma {:induction false} BadgesShowAll(facilities: seq<string>, from: nat)
    requires from <= |facilities|
    ensures BadgesFrom(facilities, from, true) == seq(|facilities| - from, k requires 0 <= k < |facilities| - from => FacilityName(facilities[from + k]))
    decreases |facilities| - from
  {
    if from < |facilities| {
      BadgesShowAll(facilities, from + 1);
      var n := |facilities|;
      var here := seq(n - from, k requires 0 <= k < n - from => FacilityName(facilities[from + k]));
      var later := seq(n - from - 1, k requires 0 <= k < n - from - 1 => FacilityName(facilities[from + 1 + k]));
      assert here == [FacilityName(facilities[from])] + later;
    }
  }

  /** Past the third place nothing renders. */
  lemma {:induction false} BadgesPastThird(facilities: seq<string>, from: nat)
    requires 3 <= from <= |facilities|
    ensures BadgesFrom(facilities, from, false) == []
    decreases |facilities| - from
  {
    if from < |facilities| {
      BadgesPastThird(facilities, from + 1);
    }
  }

  /**
   * The card's badges: every facility when showing all; otherwise the
   * first two facilities, and with three or more a third badge counting
   * all but the first two — so at most three badges.
   */
  lemma BadgesSpec(facilities: seq<string>, showAll: bool)
    ensures showAll ==> |Badges(facilities, showAll)| == |facilities|
                        && forall k :: 0 <= k < |facilities| ==> Badges(facilities, showAll)[k] == FacilityName(facilities[k])
    ensures !showAll && |facilities| <= 2 ==>
      Badges(facilities, showAll) == seq(|facilities|, k requires 0 <= k < |facilities| => FacilityName(facilities[k]))
    ensures !showAll && |facilities| >= 3 ==>
      Badges(facilities, showAll) == [FacilityName(facilities[0]), FacilityName(facilities[1]),
                                      Overflow("+" + NatToString(|facilities| - 2) + " more")]
  {
    if showAll {
      BadgesShowAll(facilities, 0);
    } else {
      var n := |facilities|;
      if n >= 3 {
        BadgesPastThird(facilities, 3);
        calc {
          BadgesFrom(facilities, 0, false);
          [FacilityName(facilities[0])] + BadgesFrom(facilities, 1, false);
          [FacilityName(facilities[0])] + ([FacilityName(facilities[1])] + BadgesFrom(facilities, 2, false));
          [FacilityName(facilities[0])] + ([FacilityName(facilities[1])] + ([Overflow("+" + IntToString(n - 2) + " more")] + []));
        }
      } else if n == 2 {
        assert BadgesFrom(facilities, 2, false) == [];
        assert BadgesFrom(facilities, 1, false) == [FacilityName(facilities[1])];
      } else if n == 1 {
        assert BadgesFrom(facilities, 1, false) == [];
      }
    }
  }

  /** The icon classes per category. */
  const IconMap: map<string, string> := map[
    "Academic" := "fas fa-graduation-cap",
    "Engineering" := "fas fa-cogs",
    "Student Services" := "fas fa-users",
    "Academic Support" := "fas fa-book",
    "Library" := "fas fa-book-open",
    "Recreation" := "fas fa-dumbbell",
    "Administration" := "fas fa-building",
    "Research" := "fas fa-flask",
    "Laboratory" := "fas fa-microscope"]

  /** `CategoryIcon`: the mapped icon, the building icon for a missing or unknown category. */
  function CategoryIcon(category: Option<string>): (r: string)
    ensures category.Some? && category.value in IconMap ==> r == IconMap[category.value]
    ensures category.None? || category.value !in IconMap ==> r == "fas fa-building"
  {
    if category.Some? && category.value in IconMap then IconMap[category.value] else "fas fa-building"
  }

  /** Every category, known or not, gets a Font Awesome `fas` icon class. */
  lemma CategoryIconIsSolid(category: Option<string>)
    ensures StartsWith(CategoryIcon(category), "fas fa-")
  {
    var r := CategoryIcon(category);
    if category.Some? && category.value in IconMap {
      var c := category.value;
      assert c in {"Academic", "Engineering", "Student Services", "Academic Support", "Library",
                   "Recreation", "Administration", "Research", "Laboratory"};
    }
  }

  /** The floors line, shown only for a non-zero number of floors (a count of 0 would make React print a stray "0", which is not modelled). */
  function FloorsLabel(floors: Option<nat>): (r: Option<string>)
    ensures r.Some? <==> floors.Some? && floors.value != 0
  {
    if floors.None? || floors.value == 0 then None
    else Some(NatToString(floors.value) + " floor" + (if floors.value != 1 then "s" else ""))
  }

  /** The line reads back as the number of floors and is plural exactly when that is not one. */
  lemma FloorsLabelSpec(floors: nat)
    requires floors != 0
    ensures FloorsLabel(Some(floors)).Some?
    ensures StartsWith(FloorsLabel(Some(floors)).value, NatToString(floors) + " floor")
    ensures EndsWith(FloorsLabel(Some(floors)).value, "s") <==> floors != 1
  {
    var text := FloorsLabel(Some(floors)).value;
    var d := NatToString(floors) + " floor";
    assert text[..|d|] == d;
    if floors == 1 {
      assert text == "1 floor";
    }
  }
}

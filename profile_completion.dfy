/** The dashboard's profile-completion card: the share of the nine profile
    fields that are filled in, rounded to a whole percentage, and the rule that
    hides the card once the profile is complete. */
module ProfileCompletion {
  import opened Common

  /** The personal and business profile a user fills in during onboarding.
      A field the stored document lacks reads as undefined, which is falsy
      exactly like "", so an absent field is modelled as "". */
  datatype UserProfile = UserProfile(
    firstName: string,
    lastName: string,
    businessName: string,
    businessNumber: string,
    businessEmail: string,
    website: string,
    industry: string,
    roleInCompany: string,
    businessDescription: string)

  /** The fields checked for completion, in the card's order. */
  const FieldNames: seq<string> := ["firstName", "lastName", "businessName", "businessNumber",
    "businessEmail", "website", "industry", "roleInCompany", "businessDescription"]

  /** `profile[name]` for one of the nine field names (undefined, i.e. "", otherwise). */
  function FieldValue(p: UserProfile, name: string): string
  {
    match name
    case "firstName" => p.firstName
    case "lastName" => p.lastName
    case "businessName" => p.businessName
    case "businessNumber" => p.businessNumber
    case "businessEmail" => p.businessEmail
    case "website" => p.website
    case "industry" => p.industry
    case "roleInCompany" => p.roleInCompany
    case "businessDescription" => p.businessDescription
    case _ => ""
  }

  /** JavaScript truthiness of a string: only "" is falsy. */
  predicate Truthy(s: string)
  {
    s != ""
  }

  /** `names.filter(field => !!profile[field]).length`. */
  function CountFilled(p: UserProfile, names: seq<string>): (k: nat)
    ensures k <= |names|
  {
    if names == [] then 0
    else (if Truthy(FieldValue(p, names[0])) then 1 else 0) + CountFilled(p, names[1..])
  }

  /** Math.round(k / 9 * 100) for 0 <= k <= 9: the whole number nearest to
      100k/9, halves rounding up as Math.round does (100k/9 is never a half). */
  function RoundedPercent(k: nat): (r: nat)
    requires k <= 9
    ensures 18 * r <= 200 * k + 9 < 18 * r + 18
    ensures r <= 100
  {
    (200 * k + 9) / 18
  }

  /** The card's `percentage`: 0 without a profile, otherwise the rounded share
      of filled fields among the nine. */
  function Percentage(profile: Option<UserProfile>): nat
  {
    match profile
    case None => 0
    case Some(p) => RoundedPercent(CountFilled(p, FieldNames))
  }

  /** Whether the card renders at all: it returns null at exactly 100%. */
  predicate ShowCard(profile: Option<UserProfile>)
  {
    Percentage(profile) != 100
  }

  /** Every field of the nine is filled in. */
  ghost predicate Complete(p: UserProfile)
  {
    forall i :: 0 <= i < |FieldNames| ==> Truthy(FieldValue(p, FieldNames[i]))
  }

  /** The count of filled fields reaches the number of names exactly when
      every listed field is filled. */
  lemma {:induction false} CountFilledFullIff(p: UserProfile, names: seq<string>)
    ensures CountFilled(p, names) == |names| <==>
      forall i :: 0 <= i < |names| ==> Truthy(FieldValue(p, names[i]))
  {
    if names != [] {
      CountFilledFullIff(p, names[1..]);
      assert forall i :: 1 <= i < |names| ==> names[i] == names[1..][i - 1];
    }
  }

  /** A missing profile shows 0%. */
  lemma NoProfileIsZero()
    ensures Percentage(None) == 0
    ensures ShowCard(None)
  {
  }

  /** The percentage is the nearest whole number to 100 * filled / 9 and lies in [0, 100]. */
  lemma PercentageIsRoundedShare(p: UserProfile)
    ensures var k := CountFilled(p, FieldNames);
      k <= 9 && 18 * Percentage(Some(p)) <= 200 * k + 9 < 18 * Percentage(Some(p)) + 18
    ensures Percentage(Some(p)) <= 100
  {
    CountFilledFullIff(p, FieldNames);
  }

  /** 100% exactly when all nine fields are filled in. */
  lemma PercentageFullIff(p: UserProfile)
    ensures Percentage(Some(p)) == 100 <==> Complete(p)
  {
    CountFilledFullIff(p, FieldNames);
  }

  /** The card is hidden exactly for a complete profile and shown otherwise,
      including when there is no profile. */
  lemma ShowCardIff(profile: Option<UserProfile>)
    ensures ShowCard(profile) <==> profile.None? || !Complete(profile.value)
  {
    if profile.Some? {
      PercentageFullIff(profile.value);
    }
  }

  /** Two profiles that agree on every listed field except at most one field,
      which `q` fills and `p` leaves empty, differ by one in the count. */
  lemma {:induction false} CountFilledOneMore(p: UserProfile, q: UserProfile, names: seq<string>, j: nat)
    requires j < |names|
    requires !Truthy(FieldValue(p, names[j])) && Truthy(FieldValue(q, names[j]))
    requires forall i :: 0 <= i < |names| && names[i] != names[j] ==>
      FieldValue(p, names[i]) == FieldValue(q, names[i])
    requires forall i :: 0 <= i < |names| && i != j ==> names[i] != names[j]
    ensures CountFilled(q, names) == CountFilled(p, names) + 1
  {
    if j == 0 {
      CountFilledSame(p, q, names[1..], names[0]);
    } else {
      CountFilledOneMore(p, q, names[1..], j - 1);
    }
  }

  /** Profiles that agree on every listed name other than `skip`, which is not
      listed, have the same count. */
  lemma {:induction false} CountFilledSame(p: UserProfile, q: UserProfile, names: seq<string>, skip: string)
    requires forall i :: 0 <= i < |names| && names[i] != skip ==>
      FieldValue(p, names[i]) == FieldValue(q, names[i])
    requires forall i :: 0 <= i < |names| ==> names[i] != skip
    ensures CountFilled(q, names) == CountFilled(p, names)
  {
    if names != [] {
      CountFilledSame(p, q, names[1..], skip);
    }
  }

  /** Filling in one more field (and changing nothing else) never lowers the
      percentage; in fact it raises it. */
  lemma FillingFieldIncreases(p: UserProfile, q: UserProfile, j: nat)
    requires j < |FieldNames|
    requires !Truthy(FieldValue(p, FieldNames[j])) && Truthy(FieldValue(q, FieldNames[j]))
    requires forall i :: 0 <= i < |FieldNames| && i != j ==>
      FieldValue(p, FieldNames[i]) == FieldValue(q, FieldNames[i])
    ensures Percentage(Some(p)) < Percentage(Some(q))
  {
    CountFilledOneMore(p, q, FieldNames, j);
    CountFilledFullIff(q, FieldNames);
  }

  /** The ten values the card can show, one per filled-field count. */
  lemma PercentageTable(p: UserProfile)
    ensures Percentage(Some(p)) in {0, 11, 22, 33, 44, 56, 67, 78, 89, 100}
  {
    RoundedPercentTable(CountFilled(p, FieldNames));
  }

  /** Math.round(100k/9) for each possible count k. */
  lemma RoundedPercentTable(k: nat)
    requires k <= 9
    ensures RoundedPercent(k) == [0, 11, 22, 33, 44, 56, 67, 78, 89, 100][k]
  {
    if k == 0 {} else if k == 1 {} else if k == 2 {} else if k == 3 {} else if k == 4 {}
    else if k == 5 {} else if k == 6 {} else if k == 7 {} else if k == 8 {} else {}
  }
}

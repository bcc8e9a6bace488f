/**
  The library's content categories with their raw values, display names and SF Symbol names;
  the sample library items; and the progress line shown under the library.
 */
module Models {
  import opened Wrappers
  import opened Search
  import opened Decimal

  datatype ContentCategory = Career | Gym | Trip | Goal | Cooking | Add

  /** `ContentCategory.allCases`, in declaration order. */
  const AllCases: seq<ContentCategory> := [Career, Gym, Trip, Goal, Cooking, Add]

  function RawValue(c: ContentCategory): string {
    match c
    case Career => "career"
    case Gym => "gym"
    case Trip => "trip"
    case Goal => "goal"
    case Cooking => "cooking"
    case Add => "add"
  }

  /** `Identifiable.id` is the raw value. */
  function Id(c: ContentCategory): string {
    RawValue(c)
  }

  function DisplayName(c: ContentCategory): string {
    match c
    case Career => "Career"
    case Gym => "Fitness"
    case Trip => "Travel"
    case Goal => "Goals"
    case Cooking => "Cooking"
    case Add => "Add"
  }

  function Icon(c: ContentCategory): string {
    match c
    case Career => "briefcase.fill"
    case Gym => "figure.run"
    case Trip => "airplane.departure"
    case Goal => "target"
    case Cooking => "fork.knife"
    case Add => "plus"
  }

  /** `allCases` lists every case exactly once, career first and add last. */
  lemma AllCasesListsEachCaseOnce(c: ContentCategory)
    ensures |AllCases| == 6 && AllCases[0] == Career && AllCases[5] == Add
    ensures c in AllCases
    ensures forall i, j :: 0 <= i < j < |AllCases| ==> AllCases[i] != AllCases[j]
  {
  }

  /** Different cases have different raw values (so different ids). */
  lemma RawValueInjective(c: ContentCategory, d: ContentCategory)
    ensures RawValue(c) == RawValue(d) ==> c == d
    ensures Id(c) == RawValue(c)
  {
    if RawValue(c) == RawValue(d) {
      assert RawValue(c)[0] == RawValue(d)[0];
      assert |RawValue(c)| == |RawValue(d)|;
    }
  }

  /** Different cases have different display names. */
  lemma DisplayNameInjective(c: ContentCategory, d: ContentCategory)
    ensures DisplayName(c) == DisplayName(d) ==> c == d
  {
    if DisplayName(c) == DisplayName(d) {
      assert DisplayName(c)[0] == DisplayName(d)[0];
      assert |DisplayName(c)| == |DisplayName(d)|;
    }
  }

  /** Different cases have different icons. */
  lemma IconInjective(c: ContentCategory, d: ContentCategory)
    ensures Icon(c) == Icon(d) ==> c == d
  {
    if Icon(c) == Icon(d) {
      assert Icon(c)[0] == Icon(d)[0];
      assert Icon(c)[1] == Icon(d)[1];
    }
  }

  /** The synthesized `init?(rawValue:)`: the case whose raw value is `s`, or nil. */
  function FromRawValue(s: string): (r: Option<ContentCategory>)
    ensures r.Some? ==> RawValue(r.value) == s
    ensures r.None? <==> forall c: ContentCategory :: RawValue(c) != s
  {
    var r := First(AllCases, (c: ContentCategory) => RawValue(c) == s);
    assert r.None? ==> forall c: ContentCategory :: RawValue(c) != s by {
      if r.None? {
        forall c: ContentCategory ensures RawValue(c) != s {
          AllCasesListsEachCaseOnce(c);
        }
      }
    }
    r
  }

  /** Raw values round-trip: every case is rebuilt from its own raw value. */
  lemma FromRawValueRoundTrip(c: ContentCategory)
    ensures FromRawValue(RawValue(c)) == Some(c)
  {
    var r := FromRawValue(RawValue(c));
    RawValueInjective(r.value, c);
  }

  /** A library entry; its generated UUID, and its color, always blue, are not modelled. */
  datatype LibraryItem = LibraryItem(title: string, description: string, category: ContentCategory)

  const Lawyer := LibraryItem("Become a Lawyer", "", Career)
  const WeightLoss := LibraryItem("Weight Loss", "", Gym)
  const EuropeTrip := LibraryItem("Europe Trip", "", Trip)
  const LearnSpanish := LibraryItem("Learn Spanish", "", Goal)
  const AddNew := LibraryItem("Add", "", Add)

  /** The five samples cover every category except cooking, each once. */
  lemma SampleItemCategories(c: ContentCategory)
    ensures Lawyer.category == Career && WeightLoss.category == Gym && EuropeTrip.category == Trip
    ensures LearnSpanish.category == Goal && AddNew.category == Add
    ensures (c in [Lawyer.category, WeightLoss.category, EuropeTrip.category, LearnSpanish.category, AddNew.category])
            <==> c != Cooking
  {
  }

  // ---------------------------------------------------------------- progress line

  datatype ProgressStats = ProgressStats(completed: int, pending: int)

  const SampleProgress := ProgressStats(16, 7)

  /** The three characters the source file holds between the counts: "â€¢", the bullet's UTF-8 read as Windows-1252. */
  const MisencodedSeparator: string := "\U{E2}\U{20AC}\U{A2}"

  /** The intended separator, U+2022 BULLET. */
  const Bullet: char := '\U{2022}'

  /** `displayText` as the file spells it. */
  function DisplayTextAsWritten(p: ProgressStats): string {
    IntToString(p.completed) + " Complete " + MisencodedSeparator + " " + IntToString(p.pending) + " Pending"
  }

  /** `displayText` with the bullet the separator evidently is. */
  function DisplayText(p: ProgressStats): string {
    IntToString(p.completed) + " Complete " + [Bullet] + " " + IntToString(p.pending) + " Pending"
  }

  /** As written, the sample line shows three stray characters and no bullet. */
  lemma SampleShowsMisencodedSeparator()
    ensures DisplayTextAsWritten(SampleProgress) == "16 Complete \U{E2}\U{20AC}\U{A2} 7 Pending"
    ensures Bullet !in DisplayTextAsWritten(SampleProgress)
  {
    assert IntToString(16) == "16" by {
      assert NatToString(16) == NatToString(1) + [DigitChar(6)];
    }
    assert IntToString(7) == "7";
  }

  /** Corrected, the sample reads "16 Complete • 7 Pending". */
  lemma SampleDisplayText()
    ensures DisplayText(SampleProgress) == "16 Complete \U{2022} 7 Pending"
  {
    assert IntToString(16) == "16" by {
      assert NatToString(16) == NatToString(1) + [DigitChar(6)];
    }
    assert IntToString(7) == "7";
  }

  /** An interpolated number holds no space. */
  lemma IntToStringHasNoSpace(n: int)
    ensures ' ' !in IntToString(n)
  {
    if n < 0 {
      assert IntToString(n) == "-" + NatToString(-n);
    }
  }

  /** Two strings without spaces, each followed by a space, can be split apart again. */
  lemma SplitAtFirstSpace(a: string, x: string, b: string, y: string)
    requires ' ' !in a && ' ' !in b
    requires a + " " + x == b + " " + y
    ensures a == b && x == y
  {
    var s := a + " " + x;
    assert s == b + " " + y;
    assert s[|a|] == ' ' && s[|b|] == ' ';
    assert forall k :: 0 <= k < |a| ==> s[k] == a[k];
    assert forall k :: 0 <= k < |b| ==> s[k] == b[k];
    assert |a| == |b|;
    assert a == (a + " " + x)[..|a|];
    assert b == (b + " " + y)[..|b|];
    assert x == (a + " " + x)[|a| + 1..];
    assert y == (b + " " + y)[|b| + 1..];
  }

  /** Interpolation is injective: `Int` reads each number back. */
  lemma IntToStringInjective(m: int, n: int)
    requires IntToString(m) == IntToString(n)
    ensures m == n
  {
    ParseIntToString(m);
    ParseIntToString(n);
  }

  /** The words between the two counts of the corrected line. */
  const CompleteBullet: string := "Complete " + [Bullet] + " "

  lemma DisplayTextSplits(p: ProgressStats)
    ensures DisplayText(p) == IntToString(p.completed) + " " + (CompleteBullet + IntToString(p.pending) + " " + "Pending")
  {
  }

  /** The corrected line determines both counts: different stats never display alike. */
  lemma DisplayTextInjective(p: ProgressStats, q: ProgressStats)
    requires DisplayText(p) == DisplayText(q)
    ensures p == q
  {
    var a, b := IntToString(p.pending), IntToString(q.pending);
    var restP, restQ := CompleteBullet + a + " " + "Pending", CompleteBullet + b + " " + "Pending";
    IntToStringHasNoSpace(p.completed);
    IntToStringHasNoSpace(q.completed);
    DisplayTextSplits(p);
    DisplayTextSplits(q);
    SplitAtFirstSpace(IntToString(p.completed), restP, IntToString(q.completed), restQ);
    IntToStringInjective(p.completed, q.completed);
    assert a + " " + "Pending" == restP[|CompleteBullet|..];
    assert b + " " + "Pending" == restQ[|CompleteBullet|..];
    IntToStringHasNoSpace(p.pending);
    IntToStringHasNoSpace(q.pending);
    SplitAtFirstSpace(a, "Pending", b, "Pending");
    IntToStringInjective(p.pending, q.pending);
  }
}

/**
  The six-step personalisation form `ComprehensiveOnboardingFlow` and its view model
  `OnboardingViewModel`: name, birthday, hometown, then lists of schooling, work and hobby
  entries. Validators gate the Continue buttons of the first three steps.

  Unicode character classes are parameters: `isSpace` stands for membership in
  `.whitespacesAndNewlines`, `isNumber` for `Character.isNumber`; `parses` stands for
  `DateFormatter` with format "MM/dd/yyyy" accepting a string.
 */
module ComprehensiveOnboarding {
  import opened Wrappers
  import opened Search
  import opened Decimal

  // ---------------------------------------------------------------- text validators

  /** Drops leading characters of the class. */
  function TrimLeading(s: string, isSpace: char -> bool): (r: string)
    ensures |r| <= |s| && r == s[|s| - |r|..]
    ensures forall i :: 0 <= i < |s| - |r| ==> isSpace(s[i])
    ensures r != [] ==> !isSpace(r[0])
  {
    if s != [] && isSpace(s[0]) then TrimLeading(s[1..], isSpace) else s
  }

  /** Drops trailing characters of the class. */
  function TrimTrailing(s: string, isSpace: char -> bool): (r: string)
    ensures |r| <= |s| && r == s[..|r|]
    ensures forall i :: |r| <= i < |s| ==> isSpace(s[i])
    ensures r != [] ==> !isSpace(r[|r| - 1])
  {
    if s != [] && isSpace(s[|s| - 1]) then TrimTrailing(s[..|s| - 1], isSpace) else s
  }

  /** `s.trimmingCharacters(in: .whitespacesAndNewlines)` */
  function Trimmed(s: string, isSpace: char -> bool): string {
    TrimTrailing(TrimLeading(s, isSpace), isSpace)
  }

  /**
    `!s.trimmingCharacters(in: .whitespacesAndNewlines).isEmpty`, the name and hometown
    validators: true exactly when some character is neither whitespace nor a newline.
   */
  function HasVisibleText(s: string, isSpace: char -> bool): (b: bool)
    ensures b <==> exists i :: 0 <= i < |s| && !isSpace(s[i])
  {
    var r := Trimmed(s, isSpace);
    if r != [] then
      assert s[|s| - |TrimLeading(s, isSpace)|] == r[0];
      true
    else
      false
  }

  /** The string handed to the date formatter. */
  function BirthdayString(month: string, day: string, year: string): string {
    month + "/" + day + "/" + year
  }

  /** `canContinueFromBirthday`: all three parts present, and the formatter accepts "MM/dd/yyyy". */
  function CanContinueFromBirthday(month: string, day: string, year: string, parses: string -> bool): (b: bool)
    ensures month == [] || day == [] || year == [] ==> !b
    ensures b ==> parses(BirthdayString(month, day, year))
    ensures month != [] && day != [] && year != [] && parses(BirthdayString(month, day, year)) ==> b
  {
    if month == [] || day == [] || year == [] then false
    else parses(BirthdayString(month, day, year))
  }

  // ---------------------------------------------------------------- entries

  datatype SchoolingEntry = SchoolingEntry(
    award: string, school: string, subject: string, startDate: string, endDate: string, isPresent: bool)
  datatype WorkEntry = WorkEntry(role: string, company: string, startDate: string, endDate: string, isPresent: bool)
  datatype HobbyEntry = HobbyEntry(hobby: string)

  const EmptySchooling := SchoolingEntry("", "", "", "", "", false)
  const EmptyWork := WorkEntry("", "", "", "", false)
  const EmptyHobby := HobbyEntry("")

  /** Degrees offered by the award menu. */
  const AwardOptions: seq<string> := ["High School", "Associate", "Bachelor's", "Master's", "PhD", "Certificate"]

  /** The subject field appears once a degree other than "High School" is picked. */
  predicate ShowsSubjectField(e: SchoolingEntry) {
    e.award != "" && e.award != "High School"
  }

  /** A schooling entry counts once award, school and start date are filled in. */
  predicate SchoolingComplete(e: SchoolingEntry) {
    e.award != "" && e.school != "" && e.startDate != ""
  }

  predicate WorkComplete(e: WorkEntry) {
    e.role != "" && e.company != "" && e.startDate != ""
  }

  predicate HobbyComplete(e: HobbyEntry) {
    e.hobby != ""
  }

  /** `hasSchoolingData`: some entry is complete; subject, end date and "Present" play no part. */
  function HasSchoolingData(entries: seq<SchoolingEntry>): (b: bool)
    ensures b <==> exists i :: 0 <= i < |entries| && SchoolingComplete(entries[i])
  {
    Contains(entries, SchoolingComplete)
  }

  /** `hasWorkData`: some entry has role, company and start date. */
  function HasWorkData(entries: seq<WorkEntry>): (b: bool)
    ensures b <==> exists i :: 0 <= i < |entries| && WorkComplete(entries[i])
  {
    Contains(entries, WorkComplete)
  }

  /** `hasHobbiesData`: some entry names a hobby. */
  function HasHobbiesData(entries: seq<HobbyEntry>): (b: bool)
    ensures b <==> exists i :: 0 <= i < |entries| && HobbyComplete(entries[i])
  {
    Contains(entries, HobbyComplete)
  }

  /** The "Present?" checkbox of a schooling entry: flips the flag, and clears the end date when it turns on. */
  function ToggledSchooling(e: SchoolingEntry): (r: SchoolingEntry)
    ensures r.isPresent == !e.isPresent
    ensures r.endDate == if r.isPresent then "" else e.endDate
    ensures r.(isPresent := e.isPresent, endDate := e.endDate) == e
  {
    var t := e.(isPresent := !e.isPresent);
    if t.isPresent then t.(endDate := "") else t
  }

  /** The "Present?" checkbox of a work entry, with the same rule. */
  function ToggledWork(e: WorkEntry): (r: WorkEntry)
    ensures r.isPresent == !e.isPresent
    ensures r.endDate == if r.isPresent then "" else e.endDate
    ensures r.(isPresent := e.isPresent, endDate := e.endDate) == e
  {
    var t := e.(isPresent := !e.isPresent);
    if t.isPresent then t.(endDate := "") else t
  }

  /** A schooling or work row shows its minus button unless it is the only row. */
  predicate RowMinusOffered(count: nat, index: nat) {
    !(count == 1 && index == 0)
  }

  /** A hobby row shows its minus button only while there is more than one row. */
  predicate HobbyMinusOffered(count: nat) {
    count > 1
  }

  /**
    Of the six degrees of the award menu, every one but "High School" shows the subject field;
    an entry with no degree yet shows none.
   */
  lemma SubjectFieldForDegrees(e: SchoolingEntry, i: nat)
    requires i < |AwardOptions|
    ensures ShowsSubjectField(e.(award := AwardOptions[i])) <==> i != 0
    ensures e.award == "" ==> !ShowsSubjectField(e)
  {
  }

  /** For an existing row the two rules agree: minus is offered exactly when a row would remain. */
  lemma MinusKeepsOneRow(count: nat, index: nat)
    requires index < count
    ensures RowMinusOffered(count, index) <==> HobbyMinusOffered(count)
    ensures RowMinusOffered(count, index) ==> count - 1 >= 1
  {
  }

  /** `s[..index] + s[index + 1..]`, what `remove(at: index)` leaves. */
  function RemovedAt<T>(s: seq<T>, index: nat): (r: seq<T>)
    requires index < |s|
    ensures |r| == |s| - 1
    ensures forall k :: 0 <= k < index ==> r[k] == s[k]
    ensures forall k :: index <= k < |r| ==> r[k] == s[k + 1]
  {
    s[..index] + s[index + 1..]
  }

  // ---------------------------------------------------------------- digit fields

  /** `s.filter { $0.isNumber }`: the number characters of `s`, in order. */
  function NumbersOnly(s: string, isNumber: char -> bool): (r: string)
    ensures |r| <= |s|
    ensures forall i :: 0 <= i < |r| ==> isNumber(r[i])
    ensures forall i :: 0 <= i < |r| ==> r[i] in s
    ensures forall i :: 0 <= i < |s| && isNumber(s[i]) ==> s[i] in r
    ensures |r| == CountWhere(s, isNumber)
    ensures (forall i :: 0 <= i < |s| ==> isNumber(s[i])) ==> r == s
  {
    if s == [] then []
    else (if isNumber(s[0]) then [s[0]] else []) + NumbersOnly(s[1..], isNumber)
  }

  /** Filtering works character by character, so the kept characters stay in the input's order. */
  lemma {:induction false} NumbersOnlyAppend(a: string, b: string, isNumber: char -> bool)
    ensures NumbersOnly(a + b, isNumber) == NumbersOnly(a, isNumber) + NumbersOnly(b, isNumber)
  {
    if a != [] {
      assert (a + b)[1..] == a[1..] + b;
      NumbersOnlyAppend(a[1..], b, isNumber);
    } else {
      assert a + b == b;
    }
  }

  /** The day and year handlers: keep number characters, then cut to at most `limit` of them. */
  function LimitedNumbers(s: string, isNumber: char -> bool, limit: nat): (r: string)
    ensures |r| <= limit
    ensures r <= NumbersOnly(s, isNumber)
    ensures |r| == if |NumbersOnly(s, isNumber)| > limit then limit else |NumbersOnly(s, isNumber)|
  {
    var filtered := NumbersOnly(s, isNumber);
    if |filtered| > limit then filtered[..limit] else filtered
  }

  /**
    The handler runs again on the value it wrote; filtering that value again changes nothing,
    so the field settles after one pass.
   */
  lemma LimitedNumbersIdempotent(s: string, isNumber: char -> bool, limit: nat)
    ensures LimitedNumbers(LimitedNumbers(s, isNumber, limit), isNumber, limit) == LimitedNumbers(s, isNumber, limit)
  {
    var r := LimitedNumbers(s, isNumber, limit);
    var filtered := NumbersOnly(s, isNumber);
    assert forall i :: 0 <= i < |r| ==> r[i] == filtered[i];
    assert NumbersOnly(r, isNumber) == r;
  }

  const DayDigits: nat := 2
  const YearDigits: nat := 4

  // ---------------------------------------------------------------- month menu and label

  /** `String(format: "%02d", n)` for `0 <= n < 100`. */
  function TwoDigits(n: nat): (code: string)
    requires n < 100
    ensures |code| == 2 && AllDigits(code)
    ensures ParseInt(code) == Some(n)
  {
    var s := if n < 10 then "0" + NatToString(n) else NatToString(n);
    assert |s| == 2 by {
      if n >= 10 { assert |NatToString(n / 10)| == 1; }
    }
    DigitsValueOfNatToString(n);
    assert DigitsValue(s) == n by {
      if n < 10 {
        assert s[..1] == "0";
        assert DigitsValue(s[..1]) == 0 by { assert s[..1][..0] == []; }
      }
    }
    s
  }

  /** Month names of the formatter's `monthSymbols` in an English locale. */
  const MonthSymbols: seq<string> := ["January", "February", "March", "April", "May", "June", "July",
                                      "August", "September", "October", "November", "December"]

  /** The index the month label uses as written: `Int(month) ?? 1 - 1` parses as `Int(month) ?? 0`. */
  function MonthLabelIndexAsWritten(month: string): int {
    ParseInt(month).GetOr(1 - 1)
  }

  /** The index the label evidently means: `(Int(month) ?? 1) - 1`. */
  function MonthLabelIndex(month: string): int {
    ParseInt(month).GetOr(1) - 1
  }

  /** As written, picking December indexes one past the twelve month names, and January shows "February". */
  lemma MonthLabelAsWrittenIsOffByOne()
    ensures MonthLabelIndexAsWritten(TwoDigits(12)) == |MonthSymbols|
    ensures MonthSymbols[MonthLabelIndexAsWritten(TwoDigits(1))] == "February"
  {
  }

  /** Corrected, the label of every month the menu can pick is the name of that month. */
  lemma MonthLabelMatchesMenu(monthNum: int)
    requires 1 <= monthNum <= 12
    ensures 0 <= MonthLabelIndex(TwoDigits(monthNum)) < |MonthSymbols|
    ensures MonthSymbols[MonthLabelIndex(TwoDigits(monthNum))] == MonthSymbols[monthNum - 1]
  {
  }

  // ---------------------------------------------------------------- view model

  /** Every published field of the view model, as one value. */
  datatype OnboardingData = OnboardingData(
    name: string, month: string, day: string, year: string, hometown: string,
    schoolingEntries: seq<SchoolingEntry>, workEntries: seq<WorkEntry>, hobbyEntries: seq<HobbyEntry>)

  class OnboardingViewModel {
    var name: string
    var month: string
    var day: string
    var year: string
    var hometown: string
    var schoolingEntries: seq<SchoolingEntry>
    var workEntries: seq<WorkEntry>
    var hobbyEntries: seq<HobbyEntry>

    function Data(): OnboardingData
      reads this
    {
      OnboardingData(name, month, day, year, hometown, schoolingEntries, workEntries, hobbyEntries)
    }

    /** No entry list is ever empty. */
    ghost predicate Valid()
      reads this
    {
      |schoolingEntries| >= 1 && |workEntries| >= 1 && |hobbyEntries| >= 1
    }

    /** Empty fields, and each list starting with exactly one empty entry. */
    constructor ()
      ensures Data() == OnboardingData("", "", "", "", "", [EmptySchooling], [EmptyWork], [EmptyHobby])
      ensures Valid()
    {
      name, month, day, year, hometown := "", "", "", "", "";
      schoolingEntries := [EmptySchooling];
      workEntries := [EmptyWork];
      hobbyEntries := [EmptyHobby];
    }

    function CanContinueFromName(isSpace: char -> bool): (b: bool)
      reads this
      ensures b <==> exists i :: 0 <= i < |name| && !isSpace(name[i])
    {
      HasVisibleText(name, isSpace)
    }

    function CanContinueFromHometown(isSpace: char -> bool): (b: bool)
      reads this
      ensures b <==> exists i :: 0 <= i < |hometown| && !isSpace(hometown[i])
    {
      HasVisibleText(hometown, isSpace)
    }

    function CanContinueFromBirthdayFields(parses: string -> bool): (b: bool)
      reads this
      ensures month == [] || day == [] || year == [] ==> !b
    {
      CanContinueFromBirthday(month, day, year, parses)
    }

    /** A month picked from the menu is stored as its two-digit number. */
    method SelectMonth(monthNum: int)
      requires 1 <= monthNum <= 12
      modifies this
      ensures Data() == old(Data()).(month := TwoDigits(monthNum))
      ensures Valid() == old(Valid())
    {
      month := TwoDigits(monthNum);
    }

    /** The day field's change handler. */
    method DayChanged(newValue: string, isNumber: char -> bool)
      modifies this
      ensures Data() == old(Data()).(day := LimitedNumbers(newValue, isNumber, DayDigits))
      ensures |day| <= 2
      ensures Valid() == old(Valid())
    {
      var filtered := NumbersOnly(newValue, isNumber);
      if |filtered| > DayDigits {
        day := filtered[..DayDigits];
      } else {
        day := filtered;
      }
    }

    /** The year field's change handler. */
    method YearChanged(newValue: string, isNumber: char -> bool)
      modifies this
      ensures Data() == old(Data()).(year := LimitedNumbers(newValue, isNumber, YearDigits))
      ensures |year| <= 4
      ensures Valid() == old(Valid())
    {
      var filtered := NumbersOnly(newValue, isNumber);
      if |filtered| > YearDigits {
        year := filtered[..YearDigits];
      } else {
        year := filtered;
      }
    }

    /** A degree picked from the award menu of row `index`. */
    method SelectAward(index: nat, award: string)
      requires index < |schoolingEntries| && award in AwardOptions
      modifies this
      ensures Data() == old(Data()).(schoolingEntries := old(schoolingEntries)[index := old(schoolingEntries)[index].(award := award)])
      ensures Valid() == old(Valid())
    {
      schoolingEntries := schoolingEntries[index := schoolingEntries[index].(award := award)];
    }

    method ToggleSchoolingPresent(index: nat)
      requires index < |schoolingEntries|
      modifies this
      ensures Data() == old(Data()).(schoolingEntries := old(schoolingEntries)[index := ToggledSchooling(old(schoolingEntries)[index])])
      ensures Valid() == old(Valid())
    {
      var entry := schoolingEntries[index].(isPresent := !schoolingEntries[index].isPresent);
      if entry.isPresent {
        entry := entry.(endDate := "");
      }
      schoolingEntries := schoolingEntries[index := entry];
    }

    method ToggleWorkPresent(index: nat)
      requires index < |workEntries|
      modifies this
      ensures Data() == old(Data()).(workEntries := old(workEntries)[index := ToggledWork(old(workEntries)[index])])
      ensures Valid() == old(Valid())
    {
      var entry := workEntries[index].(isPresent := !workEntries[index].isPresent);
      if entry.isPresent {
        entry := entry.(endDate := "");
      }
      workEntries := workEntries[index := entry];
    }

    method AddSchoolingEntry()
      requires Valid()
      modifies this
      ensures Data() == old(Data()).(schoolingEntries := old(schoolingEntries) + [EmptySchooling])
      ensures Valid()
    {
      schoolingEntries := schoolingEntries + [EmptySchooling];
    }

    method RemoveSchoolingEntry(index: nat)
      requires Valid() && index < |schoolingEntries| && RowMinusOffered(|schoolingEntries|, index)
      modifies this
      ensures Data() == old(Data()).(schoolingEntries := RemovedAt(old(schoolingEntries), index))
      ensures Valid()
    {
      schoolingEntries := schoolingEntries[..index] + schoolingEntries[index + 1..];
    }

    method AddWorkEntry()
      requires Valid()
      modifies this
      ensures Data() == old(Data()).(workEntries := old(workEntries) + [EmptyWork])
      ensures Valid()
    {
      workEntries := workEntries + [EmptyWork];
    }

    method RemoveWorkEntry(index: nat)
      requires Valid() && index < |workEntries| && RowMinusOffered(|workEntries|, index)
      modifies this
      ensures Data() == old(Data()).(workEntries := RemovedAt(old(workEntries), index))
      ensures Valid()
    {
      workEntries := workEntries[..index] + workEntries[index + 1..];
    }

    method AddHobbyEntry()
      requires Valid()
      modifies this
      ensures Data() == old(Data()).(hobbyEntries := old(hobbyEntries) + [EmptyHobby])
      ensures Valid()
    {
      hobbyEntries := hobbyEntries + [EmptyHobby];
    }

    method RemoveHobbyEntry(index: nat)
      requires Valid() && index < |hobbyEntries| && HobbyMinusOffered(|hobbyEntries|)
      modifies this
      ensures Data() == old(Data()).(hobbyEntries := RemovedAt(old(hobbyEntries), index))
      ensures Valid()
    {
      hobbyEntries := hobbyEntries[..index] + hobbyEntries[index + 1..];
    }
  }

  // ---------------------------------------------------------------- step cursor

  const TotalSteps: nat := 6

  class ComprehensiveOnboardingFlow {
    const viewModel: OnboardingViewModel
    var currentStep: int

    ghost predicate Valid()
      reads this
    {
      0 <= currentStep < TotalSteps
    }

    constructor (viewModel: OnboardingViewModel)
      ensures this.viewModel == viewModel && currentStep == 0 && Valid()
    {
      this.viewModel := viewModel;
      currentStep := 0;
    }

    /**
      Whether the forward button of the current step is enabled: name, birthday and hometown
      need their validators; schooling, work and hobbies can always be skipped or completed.
     */
    function ForwardEnabled(isSpace: char -> bool, parses: string -> bool): bool
      reads this, viewModel
    {
      match currentStep
      case 0 => viewModel.CanContinueFromName(isSpace)
      case 1 => viewModel.CanContinueFromBirthdayFields(parses)
      case 2 => viewModel.CanContinueFromHometown(isSpace)
      case _ => true
    }

    /**
      Continue, Skip or Complete: steps 0..4 move to the next step; on the last step the flow
      reports completion (the `onComplete` callback) and stays where it is.
     */
    method Forward(isSpace: char -> bool, parses: string -> bool) returns (completed: bool)
      requires Valid() && ForwardEnabled(isSpace, parses)
      modifies this
      ensures Valid()
      ensures completed <==> old(currentStep) == TotalSteps - 1
      ensures currentStep == if completed then old(currentStep) else old(currentStep) + 1
    {
      completed := false;
      match currentStep
      case 0 => currentStep := 1;
      case 1 => currentStep := 2;
      case 2 => currentStep := 3;
      case 3 => currentStep := 4;
      case 4 => currentStep := 5;
      case 5 => completed := true;
    }

    /** Back: step k > 0 returns to k - 1; on the first step the flow is left (the `onBack` callback). */
    method Back() returns (exited: bool)
      requires Valid()
      modifies this
      ensures Valid()
      ensures exited <==> old(currentStep) == 0
      ensures currentStep == if exited then old(currentStep) else old(currentStep) - 1
    {
      exited := false;
      match currentStep
      case 0 => exited := true;
      case 1 => currentStep := 0;
      case 2 => currentStep := 1;
      case 3 => currentStep := 2;
      case 4 => currentStep := 3;
      case 5 => currentStep := 4;
    }
  }
}

/** The helpers of src/components/sections/Staffing/tabs/ShiftSchedule.tsx:
    the assignments of one day, the staffing status of an assignment and
    the expansion of a unit abbreviation into a full name. */
module ShiftSchedule {
  import opened Wrappers
  import opened CrewSense

  /** getAssignmentsForDate: the day's assignments, or none when there is no
      schedule, no day map, no entry for the date or no assignments list. */
  function GetAssignmentsForDate(scheduleData: Option<ScheduleResponse>, date: string): (r: seq<Assignment>)
    ensures scheduleData.None? || scheduleData.value.days.None? ==> r == []
    ensures scheduleData.Some? && scheduleData.value.days.Some? && date !in scheduleData.value.days.value ==> r == []
    ensures r != [] ==>
      scheduleData.Some? && scheduleData.value.days.Some? && date in scheduleData.value.days.value
      && scheduleData.value.days.value[date].assignments == Some(r)
    ensures scheduleData.Some? && scheduleData.value.days.Some? && date in scheduleData.value.days.value ==>
      r == (if scheduleData.value.days.value[date].assignments.Some?
            then scheduleData.value.days.value[date].assignments.value else [])
  {
    if scheduleData.None? || scheduleData.value.days.None? || date !in scheduleData.value.days.value then []
    else
      var day := scheduleData.value.days.value[date];
      if day.assignments.Some? then day.assignments.value else []
  }

  /** After a day's entry is set, that date answers with its assignments and
      every other date answers as before. */
  lemma AssignmentsAfterSettingDay(s: ScheduleResponse, days: map<string, DaySchedule>, date: string,
                                   day: DaySchedule, other: string)
    requires s.days == Some(days)
    requires other != date
    ensures var s' := s.(days := Some(days[date := day]));
      && GetAssignmentsForDate(Some(s'), date) == (if day.assignments.Some? then day.assignments.value else [])
      && GetAssignmentsForDate(Some(s'), other) == GetAssignmentsForDate(Some(s), other)
  {
  }

  datatype StaffingStatus = StaffingStatus(color: string, status: string)

  const Unstaffed: StaffingStatus := StaffingStatus("red", "Unstaffed")
  const UnderStaffed: StaffingStatus := StaffingStatus("yellow", "Under-staffed")
  const FullyStaffed: StaffingStatus := StaffingStatus("green", "Fully staffed")

  function Max(a: int, b: int): int {
    if a < b then b else a
  }

  /** getStaffingStatus: red when nobody is scheduled (whatever the
      minimum), yellow when some but fewer than the minimum are, green from
      max(1, minimum) shifts up. Exactly one of the three holds. */
  function GetStaffingStatus(assignment: Assignment): (s: StaffingStatus)
    ensures s == Unstaffed <==> |assignment.shifts| == 0
    ensures s == UnderStaffed <==> 0 < |assignment.shifts| < assignment.minimumStaffing
    ensures s == FullyStaffed <==> |assignment.shifts| >= Max(1, assignment.minimumStaffing)
    ensures s == Unstaffed || s == UnderStaffed || s == FullyStaffed
  {
    var totalStaffed := |assignment.shifts|;
    var minimumRequired := assignment.minimumStaffing;
    if totalStaffed == 0 then Unstaffed
    else if totalStaffed < minimumRequired then UnderStaffed
    else FullyStaffed
  }

  /** Red, yellow, green as 0, 1, 2. */
  function StatusRank(s: StaffingStatus): nat {
    if s == Unstaffed then 0 else if s == UnderStaffed then 1 else 2
  }

  /** Scheduling more shifts against the same minimum never worsens the status. */
  lemma MoreShiftsNeverWorse(a: Assignment, b: Assignment)
    requires a.minimumStaffing == b.minimumStaffing
    requires |a.shifts| <= |b.shifts|
    ensures StatusRank(GetStaffingStatus(a)) <= StatusRank(GetStaffingStatus(b))
  {
  }

  // ------------------------------------------------------------ unit names

  /** The special assignment names and their full wording, in the order of
      the object literal. */
  const SpecialAssignments: seq<(string, string)> := [
    ("Disaster Prep Public Educator", "Disaster Preparedness Public Educator"),
    ("Veg Mgmt Specialist", "Vegetation Management Specialist"),
    ("Human Rresources Coordinator", "Human Resources Coordinator"),
    ("Single Resource 2 (Line)", "Single Resource 2 (Line Assignment)"),
    ("Single Resource 3 (Line)", "Single Resource 3 (Line Assignment)"),
    ("Single Resource 4 (Line)", "Single Resource 4 (Line Assignment)")
  ]

  /** The value of an own property of the literal. */
  function SpecialLookup(table: seq<(string, string)>, key: string): (r: Option<string>)
    ensures r.Some? ==> exists i :: 0 <= i < |table| && table[i] == (key, r.value)
    ensures r.None? ==> forall i :: 0 <= i < |table| ==> table[i].0 != key
  {
    if table == [] then None
    else if table[0].0 == key then Some(table[0].1)
    else SpecialLookup(table[1..], key)
  }

  predicate IsSpecialName(s: string) {
    SpecialLookup(SpecialAssignments, s).Some?
  }

  /** The unit prefixes, checked in this order. */
  predicate HasUnitPrefix(s: string) {
    s != [] && s[0] in "ERTBM"
  }

  /** The full name of a unit: Engine, Rescue, Truck and Medic units carry
      their station, a battalion chief only the number. */
  function UnitName(letter: char, n: string): string {
    if letter == 'E' then "Engine " + n + " (Station " + n + ")"
    else if letter == 'R' then "Rescue " + n + " (Station " + n + ")"
    else if letter == 'T' then "Truck " + n + " (Station " + n + ")"
    else if letter == 'B' then "Battalion Chief " + n
    else "Medic " + n + " (Station " + n + ")"
  }

  /** getFullStationName, with the special table read as a dictionary of
      its own entries only; see GetFullStationNameAsWritten for the lookup
      the source performs. A capital E, R, T, B or M in front expands, with
      the rest of the string as the number; otherwise a special name gets
      its full wording and anything else, the empty string included, comes
      back unchanged. */
  function GetFullStationName(abbreviation: string): (full: string)
    ensures HasUnitPrefix(abbreviation) ==> full == UnitName(abbreviation[0], abbreviation[1..])
    ensures !HasUnitPrefix(abbreviation) && IsSpecialName(abbreviation) ==>
      full == SpecialLookup(SpecialAssignments, abbreviation).value
    ensures !HasUnitPrefix(abbreviation) && !IsSpecialName(abbreviation) ==> full == abbreviation
  {
    if abbreviation != [] && abbreviation[0] == 'E' then
      var stationNum := abbreviation[1..];
      "Engine " + stationNum + " (Station " + stationNum + ")"
    else if abbreviation != [] && abbreviation[0] == 'R' then
      var stationNum := abbreviation[1..];
      "Rescue " + stationNum + " (Station " + stationNum + ")"
    else if abbreviation != [] && abbreviation[0] == 'T' then
      var stationNum := abbreviation[1..];
      "Truck " + stationNum + " (Station " + stationNum + ")"
    else if abbreviation != [] && abbreviation[0] == 'B' then
      var batchNum := abbreviation[1..];
      "Battalion Chief " + batchNum
    else if abbreviation != [] && abbreviation[0] == 'M' then
      var stationNum := abbreviation[1..];
      "Medic " + stationNum + " (Station " + stationNum + ")"
    else
      match SpecialLookup(SpecialAssignments, abbreviation)
      case Some(fullName) => fullName
      case None => abbreviation
  }

  /** An expanded unit name begins with the unit's letter and is longer than
      the abbreviation. */
  lemma UnitNameShape(letter: char, n: string)
    requires letter in "ERTBM"
    ensures var u := UnitName(letter, n); |u| > |n| + 1 && u[0] == letter
  {
  }

  /** The name comes back unchanged exactly when it has no unit prefix and
      is not a special name. */
  lemma UnchangedIff(abbreviation: string)
    ensures GetFullStationName(abbreviation) == abbreviation
            <==> !HasUnitPrefix(abbreviation) && !IsSpecialName(abbreviation)
  {
    if HasUnitPrefix(abbreviation) {
      UnitNameShape(abbreviation[0], abbreviation[1..]);
    } else if IsSpecialName(abbreviation) {
      var full := SpecialLookup(SpecialAssignments, abbreviation).value;
      assert full != abbreviation by {
        var i :| 0 <= i < |SpecialAssignments| && SpecialAssignments[i] == (abbreviation, full);
        assert i in {0, 1, 2, 3, 4, 5};
      }
    }
  }

  function UnitHead(letter: char): string {
    if letter == 'E' then "Engine "
    else if letter == 'R' then "Rescue "
    else if letter == 'T' then "Truck "
    else if letter == 'B' then "Battalion Chief "
    else "Medic "
  }

  function UnitTail(letter: char, n: string): string {
    if letter == 'B' then "" else " (Station " + n + ")"
  }

  /** A unit name is a head fixed by the letter, the number, and a tail
      whose length fixes the number's length. */
  lemma UnitNameSplit(letter: char, n: string)
    ensures UnitName(letter, n) == UnitHead(letter) + n + UnitTail(letter, n)
    ensures |UnitTail(letter, n)| == if letter == 'B' then 0 else |n| + 11
  {
  }

  /** Different unit abbreviations expand to different names: the first
      letter of the expansion is the unit letter, and its length fixes the
      length of the number, which then stands at a fixed place. */
  lemma {:induction false} UnitExpansionInjective(a: string, b: string)
    requires HasUnitPrefix(a) && HasUnitPrefix(b)
    requires GetFullStationName(a) == GetFullStationName(b)
    ensures a == b
  {
    UnitNameShape(a[0], a[1..]);
    UnitNameShape(b[0], b[1..]);
    var letter := a[0];
    assert b[0] == letter;
    var n, m := a[1..], b[1..];
    UnitNameSplit(letter, n);
    UnitNameSplit(letter, m);
    assert |n| == |m|;
    SliceOfConcat(UnitHead(letter), n, UnitTail(letter, n));
    SliceOfConcat(UnitHead(letter), m, UnitTail(letter, m));
    assert a == [letter] + n && b == [letter] + m;
  }

  lemma SliceOfConcat(h: string, n: string, t: string)
    ensures (h + n + t)[|h|..|h| + |n|] == n
  {
    assert forall i :: 0 <= i < |n| ==> (h + n + t)[|h| + i] == n[i];
  }

  /** In a table whose earlier keys differ from key i, entry i is found. */
  lemma {:induction false} LookupFindsEntry(table: seq<(string, string)>, i: nat)
    requires i < |table|
    requires forall j :: 0 <= j < i ==> table[j].0 != table[i].0
    ensures SpecialLookup(table, table[i].0) == Some(table[i].1)
  {
    if i > 0 {
      LookupFindsEntry(table[1..], i - 1);
    }
  }

  /** The special names are pairwise distinct and none begins with a unit
      letter. */
  lemma SpecialNamesDistinct()
    ensures forall i, j :: 0 <= i < j < |SpecialAssignments| ==> SpecialAssignments[i].0 != SpecialAssignments[j].0
    ensures forall i :: 0 <= i < |SpecialAssignments| ==> !HasUnitPrefix(SpecialAssignments[i].0)
  {
    var t := SpecialAssignments;
    assert t[3].0[16] == '2' && t[4].0[16] == '3' && t[5].0[16] == '4';
    assert t[0].0[0] == 'D' && t[1].0[0] == 'V' && t[2].0[0] == 'H' && t[3].0[0] == 'S';
  }

  /** The prefix rules never shadow the table: each special name gets its
      full wording. */
  lemma SpecialNamesReachTable(i: nat)
    requires i < |SpecialAssignments|
    ensures GetFullStationName(SpecialAssignments[i].0) == SpecialAssignments[i].1
  {
    SpecialNamesDistinct();
    LookupFindsEntry(SpecialAssignments, i);
  }

  /** "E14" and the bare "E", whose number is empty. */
  lemma EngineExamples()
    ensures GetFullStationName("E14") == "Engine 14 (Station 14)"
    ensures GetFullStationName("E") == "Engine  (Station )"
  {
    ExpandsAsUnit("E14");
    ExpandsAsUnit("E");
  }

  lemma BattalionExample()
    ensures GetFullStationName("B2") == "Battalion Chief 2"
  {
    ExpandsAsUnit("B2");
  }

  /** A full name that already begins with M is expanded again. */
  lemma MedicExample()
    ensures GetFullStationName("Medic 19") == "Medic edic 19 (Station edic 19)"
  {
    ExpandsAsUnit("Medic 19");
  }

  lemma ExpandsAsUnit(s: string)
    requires HasUnitPrefix(s)
    ensures GetFullStationName(s) == UnitName(s[0], s[1..])
  {
  }

  /** The empty string and a lower-case prefix are returned unchanged. */
  lemma UnchangedExamples()
    ensures GetFullStationName("") == ""
    ensures GetFullStationName("e14") == "e14"
  {
    UnchangedIff("");
    UnchangedIff("e14");
  }

  // --------------------------------------------------- the source as written

  /** The members every object literal inherits from Object.prototype; a
      bracket lookup on the literal finds these too. */
  const ObjectPrototypeMembers: set<string> := {
    "constructor", "__defineGetter__", "__defineSetter__", "hasOwnProperty",
    "__lookupGetter__", "__lookupSetter__", "isPrototypeOf", "propertyIsEnumerable",
    "toString", "valueOf", "__proto__", "toLocaleString"
  }

  /** A JavaScript value the function can return: a string, or an inherited
      member of Object.prototype (a function, or the prototype itself). */
  datatype JsValue = JsString(s: string) | InheritedMember(name: string)

  /** getFullStationName as written: `specialAssignments[abbreviation] ||
      abbreviation` also finds the inherited members, all of them truthy. */
  function GetFullStationNameAsWritten(abbreviation: string): (v: JsValue)
    ensures v.InheritedMember? <==>
      !HasUnitPrefix(abbreviation) && !IsSpecialName(abbreviation) && abbreviation in ObjectPrototypeMembers
  {
    if HasUnitPrefix(abbreviation) || IsSpecialName(abbreviation) then JsString(GetFullStationName(abbreviation))
    else if abbreviation in ObjectPrototypeMembers then InheritedMember(abbreviation)
    else JsString(abbreviation)
  }

  /** The input that shows it: "constructor" yields the Object function, not
      a string, and "toString" the prototype's toString. */
  lemma InheritedMemberReturned()
    ensures GetFullStationNameAsWritten("constructor") == InheritedMember("constructor")
    ensures GetFullStationNameAsWritten("toString") == InheritedMember("toString")
  {
  }

  /** The corrected function agrees with the source everywhere else, and
      always returns a string: unchanged for those inherited names. */
  lemma CorrectedAgreesElsewhere(abbreviation: string)
    ensures abbreviation !in ObjectPrototypeMembers ==>
      GetFullStationNameAsWritten(abbreviation) == JsString(GetFullStationName(abbreviation))
    ensures abbreviation in ObjectPrototypeMembers ==> GetFullStationName(abbreviation) == abbreviation
  {
    if abbreviation in ObjectPrototypeMembers {
      CorrectedOnPrototypeMember(abbreviation);
    } else {
      AsWrittenOffPrototype(abbreviation);
    }
  }

  lemma AsWrittenOffPrototype(s: string)
    requires s !in ObjectPrototypeMembers
    ensures GetFullStationNameAsWritten(s) == JsString(GetFullStationName(s))
  {
  }

  lemma CorrectedOnPrototypeMember(s: string)
    requires s in ObjectPrototypeMembers
    ensures GetFullStationName(s) == s
  {
    PrototypeMembersAreLowerOrUnderscore(s);
    SpecialNamesInitials();
    NotSpecial(s);
    assert !HasUnitPrefix(s);
  }

  lemma SpecialNamesInitials()
    ensures forall i :: 0 <= i < |SpecialAssignments| ==> SpecialAssignments[i].0 != [] && SpecialAssignments[i].0[0] in "DVHS"
  {
    var t := SpecialAssignments;
    assert t[0].0[0] == 'D' && t[1].0[0] == 'V' && t[2].0[0] == 'H';
    assert t[3].0[0] == 'S' && t[4].0[0] == 'S' && t[5].0[0] == 'S';
  }

  lemma PrototypeMembersAreLowerOrUnderscore(s: string)
    requires s in ObjectPrototypeMembers
    ensures s != [] && s[0] in "_chiptv"
  {
  }

  /** A name that starts with none of the special names' initials is not
      in the table. */
  lemma NotSpecial(s: string)
    requires s != [] && s[0] in "_chiptv"
    requires forall i :: 0 <= i < |SpecialAssignments| ==> SpecialAssignments[i].0 != [] && SpecialAssignments[i].0[0] in "DVHS"
    ensures !IsSpecialName(s)
  {
  }
}

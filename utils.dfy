/** The shared helpers of lib/utils.ts: `cn`, `formatDateRange` and `formatSummitDisplay`. */
module Utils {
  import opened Wrappers
  import opened Text
  import opened Dates

  /** A class-name argument: a string, a boolean (from `cond && 'x'`), or null/undefined. */
  datatype ClassValue = ClassName(name: string) | Flag(on: bool) | Absent

  /** JavaScript truthiness of a class-name argument. */
  predicate Truthy(v: ClassValue) {
    match v
    case ClassName(n) => n != ""
    case Flag(b) => b
    case Absent => false
  }

  /** How `join` prints a truthy argument. */
  function ClassText(v: ClassValue): (t: string)
    requires Truthy(v)
    ensures t != ""
  {
    match v
    case ClassName(n) => n
    case Flag(_) => "true"
  }

  /** `inputs.filter(Boolean)`, each kept argument as `join` prints it. */
  function KeptClasses(inputs: seq<ClassValue>): (r: seq<string>)
    ensures |r| <= |inputs|
    ensures forall k :: 0 <= k < |r| ==> r[k] != ""
    ensures r == [] <==> forall k :: 0 <= k < |inputs| ==> !Truthy(inputs[k])
  {
    if inputs == [] then []
    else
      var rest := KeptClasses(inputs[1..]);
      assert forall k :: 1 <= k < |inputs| ==> inputs[k] == inputs[1..][k - 1];
      if Truthy(inputs[0]) then [ClassText(inputs[0])] + rest else rest
  }

  /** `cn(...inputs)`: the truthy arguments, in order, joined by single spaces. */
  function Cn(inputs: seq<ClassValue>): string {
    Join(KeptClasses(inputs), " ")
  }

  lemma {:induction false} KeptClassesAppend(a: seq<ClassValue>, b: seq<ClassValue>)
    ensures KeptClasses(a + b) == KeptClasses(a) + KeptClasses(b)
    decreases |a|
  {
    if a != [] {
      assert (a + b)[1..] == a[1..] + b;
      KeptClassesAppend(a[1..], b);
    } else {
      assert a + b == b;
    }
  }

  /** With no truthy argument the class string is empty, and only then. */
  lemma CnEmpty(inputs: seq<ClassValue>)
    ensures Cn(inputs) == "" <==> forall k :: 0 <= k < |inputs| ==> !Truthy(inputs[k])
  {
    JoinOfNonEmpty(KeptClasses(inputs), " ");
  }

  /** A single truthy argument is printed on its own. */
  lemma CnSingle(v: ClassValue)
    requires Truthy(v)
    ensures Cn([v]) == ClassText(v)
  {
    assert KeptClasses([v]) == [ClassText(v)];
  }

  /** The classes of two argument lists, in order, with one space between when both give some. */
  lemma CnAppend(a: seq<ClassValue>, b: seq<ClassValue>)
    ensures Cn(a + b) == if Cn(a) == "" then Cn(b)
                         else if Cn(b) == "" then Cn(a)
                         else Cn(a) + " " + Cn(b)
  {
    KeptClassesAppend(a, b);
    JoinAppend(KeptClasses(a), KeptClasses(b), " ");
    JoinOfNonEmpty(KeptClasses(a), " ");
    JoinOfNonEmpty(KeptClasses(b), " ");
  }

  /** A falsy argument anywhere changes nothing. */
  lemma CnDropsFalsy(a: seq<ClassValue>, v: ClassValue, b: seq<ClassValue>)
    requires !Truthy(v)
    ensures Cn(a + [v] + b) == Cn(a + b)
  {
    KeptClassesAppend(a + [v], b);
    KeptClassesAppend(a, [v]);
    KeptClassesAppend(a, b);
    assert KeptClasses([v]) == [];
    assert KeptClasses(a + [v]) == KeptClasses(a);
  }

  /**
   * `formatDateRange(startDate)` for a "YYYY-MM-DD" start date: the start
   * date's month name and day, a dash, the day of the date one day later
   * (which wraps around to 1 at the end of a month), a comma and the year
   * number read from the string. None where the date string is outside
   * the modelled syntax (see Dates.ParseDateParts).
   */
  function FormatDateRange(startDate: string): Option<string> {
    match ParseDateParts(startDate)
    case None => None
    case Some((year, month, day)) =>
      var start := MakeDate(year, month - 1, day);
      var end := MakeDate(year, month - 1, day + 1);
      Some(MonthName(start.month) + " " + NatToString(start.day) + "-" + NatToString(end.day)
           + ", " + NatToString(year))
  }

  /**
   * For a real calendar date the range names its month and day, then the
   * next day of the month, or 1 on the last day of a month; the year is
   * the one written in the string, also when the next day is in the next year.
   */
  lemma FormatDateRangeOfDate(s: string, year: nat, month: nat, day: nat)
    requires ParseDateParts(s) == Some((year, month, day))
    requires 1 <= month <= 12 && 1 <= day <= DaysInMonth(FullYear(year), month - 1)
    ensures FormatDateRange(s) ==
              Some(MonthName(month - 1) + " " + NatToString(day) + "-"
                   + NatToString(if day < DaysInMonth(FullYear(year), month - 1) then day + 1 else 1)
                   + ", " + NatToString(year))
  {
    MakeDateExisting(year, month - 1, day);
    MakeDateNextDay(year, month - 1, day);
  }

  /** `formatSummitDisplay(startDate, location)`: the date range, a bar, the location. */
  function FormatSummitDisplay(startDate: string, location: string): (r: Option<string>)
    ensures r.Some? <==> FormatDateRange(startDate).Some?
    ensures r.Some? ==> r.value == FormatDateRange(startDate).value + " | " + location
  {
    match FormatDateRange(startDate)
    case None => None
    case Some(range) => Some(range + " | " + location)
  }

  /**
   * For a summit starting on a real calendar date the heading line reads
   * "<Month> <day>-<next day>, <year> | <location>".
   */
  lemma FormatSummitDisplayOfDate(s: string, location: string, year: nat, month: nat, day: nat)
    requires ParseDateParts(s) == Some((year, month, day))
    requires 1 <= month <= 12 && 1 <= day <= DaysInMonth(FullYear(year), month - 1)
    ensures FormatSummitDisplay(s, location) ==
              Some(MonthName(month - 1) + " " + NatToString(day) + "-"
                   + NatToString(if day < DaysInMonth(FullYear(year), month - 1) then day + 1 else 1)
                   + ", " + NatToString(year) + " | " + location)
  {
    FormatDateRangeOfDate(s, year, month, day);
  }
}

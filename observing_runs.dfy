/** The observing-run filters of the template tags
    (custom_code/templatetags/custom_code_tags.py: `upcoming_observing_runs`,
    `past_observing_runs`, `interesting_targets`). A user's target lists are
    named `<telescope>_<YYYYMMDD>` after an observing run, apart from the list
    `Interesting Targets`. Today's date, which the source reads from the
    clock, is a parameter. */
module ObservingRuns {
  import opened Wrappers
  import opened PyText

  /** A target list, as far as the filters look at it. */
  datatype TargetList = TargetList(id: int, name: string)

  datatype Date = Date(year: int, month: int, day: int)

  const Interesting := "Interesting Targets"

  predicate IsLeap(y: int) {
    y % 4 == 0 && (y % 100 != 0 || y % 400 == 0)
  }

  function DaysInMonth(y: int, m: int): int
    requires 1 <= m <= 12
  {
    if m == 2 then (if IsLeap(y) then 29 else 28)
    else if m == 4 || m == 6 || m == 9 || m == 11 then 30
    else 31
  }

  /** What `datetime.date(year, month, day)` accepts: years 1 to 9999 and a
      day that exists in its month. */
  predicate ValidDate(d: Date) {
    1 <= d.year <= 9999 && 1 <= d.month <= 12 && 1 <= d.day <= DaysInMonth(d.year, d.month)
  }

  /** `a <= b` on dates: by year, then month, then day. */
  predicate NotAfter(a: Date, b: Date) {
    a.year < b.year || (a.year == b.year && (a.month < b.month || (a.month == b.month && a.day <= b.day)))
  }

  /** The run date in a list's name: the part after the first `_`, read as
      YYYYMMDD. `None` stands for the `IndexError` (no `_`) or `ValueError`
      (not a number, not a date) the source raises. */
  function RunDate(name: string): Option<Date> {
    var parts := Split(name, '_');
    if |parts| < 2 then None
    else
      var datestr := parts[1];
      var year :- ParseInt(Take(datestr, 4));
      var month :- ParseInt(Slice(datestr, 4, 6));
      var day :- ParseInt(Drop(datestr, 6));
      if ValidDate(Date(year, month, day)) then Some(Date(year, month, day)) else None
  }

  /** A name `<telescope>_<YYYYMMDD>` carries the date its eight digits
      spell, when that date exists. */
  lemma RunDateOfName(telescope: string, digits: string)
    requires '_' !in telescope
    requires |digits| == 8 && forall k :: 0 <= k < 8 ==> IsDigit(digits[k])
    ensures var date := Date(DigitsValue(digits[..4]), DigitsValue(digits[4..6]), DigitsValue(digits[6..]));
      RunDate(telescope + "_" + digits) == if ValidDate(date) then Some(date) else None
  {
    assert '_' !in digits;
    SplitCons(telescope, digits, '_');
    SplitNoSep(digits, '_');
    assert telescope + "_" + digits == telescope + ['_'] + digits;
    ParseIntOfDigits(digits[..4]);
    ParseIntOfDigits(digits[4..6]);
    ParseIntOfDigits(digits[6..]);
    assert Slice(digits, 4, 6) == digits[4..6];
  }

  /** Which of the two filters runs: upcoming keeps runs on or after today,
      past keeps runs before today. */
  datatype Side = Upcoming | Past

  predicate OnSide(side: Side, date: Date, today: Date) {
    match side
    case Upcoming => NotAfter(today, date)
    case Past => !NotAfter(today, date)
  }

  /** The filter's loop over `lists`: the lists kept, or `None` once a name
      fails to parse. `Interesting Targets` is skipped. */
  function Scan(lists: seq<TargetList>, side: Side, today: Date): Option<seq<TargetList>> {
    if lists == [] then Some([])
    else
      var kept :- Scan(lists[..|lists| - 1], side, today);
      var obj := lists[|lists| - 1];
      if obj.name == Interesting then Some(kept)
      else
        var date :- RunDate(obj.name);
        if OnSide(side, date, today) then Some(kept + [obj]) else Some(kept)
  }

  /** What the filter returns: the lists kept, or the input unchanged when
      any exception was raised. */
  function RunsSpec(lists: seq<TargetList>, side: Side, today: Date): seq<TargetList> {
    match Scan(lists, side, today)
    case Some(kept) => kept
    case None => lists
  }

  /** Every name other than `Interesting Targets` carries a run date. */
  predicate AllDated(lists: seq<TargetList>) {
    forall i :: 0 <= i < |lists| && lists[i].name != Interesting ==> RunDate(lists[i].name).Some?
  }

  /** The lists other than `Interesting Targets`. */
  function RunLists(lists: seq<TargetList>): seq<TargetList> {
    if lists == [] then []
    else
      var init := RunLists(lists[..|lists| - 1]);
      if lists[|lists| - 1].name == Interesting then init else init + [lists[|lists| - 1]]
  }

  /** `upcoming_observing_runs(targetlist)` (side `Upcoming`) and
      `past_observing_runs(targetlist)` (side `Past`). */
  method ObservingRunLists(targetlist: seq<TargetList>, side: Side, today: Date) returns (runs: seq<TargetList>)
    ensures runs == RunsSpec(targetlist, side, today)
  {
    var kept: seq<TargetList> := [];
    for i := 0 to |targetlist|
      invariant Scan(targetlist[..i], side, today) == Some(kept)
    {
      var obj := targetlist[i];
      assert targetlist[..i + 1][..i] == targetlist[..i];
      if obj.name == Interesting {
        continue;
      }
      var date := RunDate(obj.name);
      if date.None? {
        ScanFailureStays(targetlist, i + 1, side, today);
        return targetlist;
      }
      if OnSide(side, date.value, today) {
        kept := kept + [obj];
      }
    }
    assert targetlist[..|targetlist|] == targetlist;
    runs := kept;
  }

  /** Once the loop has raised, the whole call has. */
  lemma {:induction false} ScanFailureStays(lists: seq<TargetList>, i: nat, side: Side, today: Date)
    requires i <= |lists| && Scan(lists[..i], side, today).None?
    ensures Scan(lists, side, today).None?
    decreases |lists| - i
  {
    if i < |lists| {
      assert lists[..i + 1][..i] == lists[..i];
      ScanFailureStays(lists, i + 1, side, today);
    } else {
      assert lists[..i] == lists;
    }
  }

  /** The loop raises exactly when some run list's name has no valid date,
      whichever side it filters for. */
  lemma {:induction false} ScanOkIff(lists: seq<TargetList>, side: Side, today: Date)
    ensures Scan(lists, side, today).Some? <==> AllDated(lists)
  {
    if lists != [] {
      var init := lists[..|lists| - 1];
      ScanOkIff(init, side, today);
      AllDatedSnoc(lists);
    }
  }

  lemma AllDatedSnoc(lists: seq<TargetList>)
    requires lists != []
    ensures var last := lists[|lists| - 1];
      AllDated(lists) <==> AllDated(lists[..|lists| - 1]) && (last.name != Interesting ==> RunDate(last.name).Some?)
  {
    var init := lists[..|lists| - 1];
    assert forall i :: 0 <= i < |init| ==> init[i] == lists[i];
  }

  /** When every run list is dated, the lists kept are exactly the run lists
      on the chosen side of today. */
  lemma {:induction false} ScanKeeps(lists: seq<TargetList>, side: Side, today: Date)
    requires AllDated(lists)
    ensures Scan(lists, side, today).Some?
    ensures forall o :: o in Scan(lists, side, today).value <==>
      o in RunLists(lists) && RunDate(o.name).Some? && OnSide(side, RunDate(o.name).value, today)
  {
    ScanOkIff(lists, side, today);
    if lists != [] {
      var init := lists[..|lists| - 1];
      assert forall i :: 0 <= i < |init| ==> init[i] == lists[i];
      ScanKeeps(init, side, today);
      RunListsDated(lists);
    }
  }

  /** The run lists all carry a date when the lists are all dated. */
  lemma {:induction false} RunListsDated(lists: seq<TargetList>)
    requires AllDated(lists)
    ensures forall o :: o in RunLists(lists) ==> o.name != Interesting && RunDate(o.name).Some?
    ensures forall o :: o in RunLists(lists) ==> o in lists
  {
    if lists != [] {
      var init := lists[..|lists| - 1];
      assert forall i :: 0 <= i < |init| ==> init[i] == lists[i];
      RunListsDated(init);
    }
  }

  /** When every run list is dated, the upcoming and the past runs split the
      run lists between them: each run list lands in exactly one of the two. */
  lemma {:induction false} RunsPartition(lists: seq<TargetList>, today: Date)
    requires AllDated(lists)
    ensures multiset(RunsSpec(lists, Upcoming, today)) + multiset(RunsSpec(lists, Past, today)) == multiset(RunLists(lists))
  {
    ScanOkIff(lists, Upcoming, today);
    ScanOkIff(lists, Past, today);
    if lists != [] {
      var init := lists[..|lists| - 1];
      assert forall i :: 0 <= i < |init| ==> init[i] == lists[i];
      RunsPartition(init, today);
      ScanOkIff(init, Upcoming, today);
      ScanOkIff(init, Past, today);
    }
  }

  /** A run list without a valid date makes both filters return their input
      unchanged, `Interesting Targets` included. */
  lemma RunsFallback(lists: seq<TargetList>, side: Side, today: Date)
    requires exists i :: 0 <= i < |lists| && lists[i].name != Interesting && RunDate(lists[i].name).None?
    ensures RunsSpec(lists, side, today) == lists
  {
    ScanOkIff(lists, side, today);
  }

  /** `interesting_targets(targetlist)`: the first list named
      `Interesting Targets`; `None` stands for the `[]` returned otherwise. */
  function InterestingTargets(lists: seq<TargetList>): (r: Option<TargetList>)
    ensures r.Some? ==> r.value in lists && r.value.name == Interesting
    ensures r.None? <==> forall o :: o in lists ==> o.name != Interesting
  {
    if lists == [] then None
    else if lists[0].name == Interesting then Some(lists[0])
    else InterestingTargets(lists[1..])
  }

  /** `interesting_targets` finds the first list so named, and finds nothing
      exactly when no list is so named. */
  lemma {:induction false} InterestingFirst(lists: seq<TargetList>) returns (i: nat)
    ensures InterestingTargets(lists).None? <==> forall j :: 0 <= j < |lists| ==> lists[j].name != Interesting
    ensures InterestingTargets(lists).Some? ==>
      i < |lists| && InterestingTargets(lists).value == lists[i] && lists[i].name == Interesting
      && forall j :: 0 <= j < i ==> lists[j].name != Interesting
  {
    if lists == [] || lists[0].name == Interesting {
      i := 0;
    } else {
      var k := InterestingFirst(lists[1..]);
      i := k + 1;
      assert forall j :: 0 < j < |lists| ==> lists[j] == lists[1..][j - 1];
    }
  }
}

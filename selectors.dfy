/**
 * The click and pick handlers of the district, community and date-range
 * selectors: each builds a new selection (or a new `YYYY-MM` bound) from
 * the current one and either emits it or, where a guard refuses, emits
 * nothing.
 */
module Selectors {
  import opened Js
  import opened Seqs

  // ------------------------------------------------------------ toggles

  /** `selected.filter(x => x !== item)`. */
  function Without(selected: seq<string>, item: string): (r: seq<string>)
    ensures forall x :: x in r <==> x in selected && x != item
    ensures Subsequence(r, selected)
  {
    FilterIsSubsequence(selected, (x: string) => x != item);
    Filter(selected, (x: string) => x != item)
  }

  /**
   * The district badge's click: remove a selected district unless it is
   * the only one selected (then nothing is emitted), append an unselected one.
   */
  function ToggleDistrict(selected: seq<string>, district: string): (r: Option<seq<string>>)
  {
    if district in selected then
      if |selected| > 1 then Some(Without(selected, district)) else None
    else Some(selected + [district])
  }

  /**
   * What the district click emits: the old list plus the district at the
   * end when it was unselected; otherwise the list without it, in the old
   * order, exactly when more than one district is selected.
   */
  lemma ToggleDistrictEmits(selected: seq<string>, district: string)
    ensures var r := ToggleDistrict(selected, district);
      (district !in selected ==> r == Some(selected + [district])) &&
      (district in selected ==>
        (r.Some? <==> |selected| > 1) &&
        (r.Some? ==> Subsequence(r.value, selected) &&
                     forall x :: x in r.value <==> x in selected && x != district))
  {
  }

  /**
   * On a selection without repeats (the only kind the handlers build), a
   * nonempty selection never becomes empty, and it stays without repeats.
   */
  lemma ToggleDistrictKeepsSelection(selected: seq<string>, district: string)
    requires NoDup(selected) && |selected| > 0
    ensures var r := ToggleDistrict(selected, district);
      r.Some? ==> |r.value| > 0 && NoDup(r.value)
  {
    var r := ToggleDistrict(selected, district);
    if district in selected && |selected| > 1 {
      var other := if selected[0] == district then selected[1] else selected[0];
      assert other in r.value;
      WithoutNoDup(selected, district);
    }
  }

  lemma {:induction false} WithoutNoDup(selected: seq<string>, item: string)
    requires NoDup(selected)
    ensures NoDup(Without(selected, item))
  {
    if selected != [] {
      WithoutNoDup(selected[1..], item);
      var rest := Without(selected[1..], item);
      if selected[0] != item {
        assert Without(selected, item) == [selected[0]] + rest;
        assert selected[0] !in selected[1..];
      } else {
        assert Without(selected, item) == rest;
      }
    }
  }

  /** The emptiness guard counts entries, not distinct districts: a repeated district is removed whole. */
  lemma ToggleDistrictRepeated()
    ensures ToggleDistrict(["A", "A"], "A") == Some([])
  {
    assert ["A", "A"][1..] == ["A"];
    assert ["A"][1..] == [];
  }

  /** The community badge's click: remove a selected community, append an unselected one. */
  function ToggleCommunity(selected: seq<string>, community: string): (r: seq<string>)
    ensures community in selected ==> forall x :: x in r <==> x in selected && x != community
    ensures community in selected ==> Subsequence(r, selected)
    ensures community !in selected ==> r == selected + [community]
  {
    if community in selected then Without(selected, community) else selected + [community]
  }

  /** Clicking an unselected community twice gives back the original list. */
  lemma ToggleCommunityTwice(selected: seq<string>, community: string)
    requires community !in selected
    ensures ToggleCommunity(ToggleCommunity(selected, community), community) == selected
  {
    var p := (x: string) => x != community;
    FilterAppend(selected, [community], p);
    FilterKeepsAll(selected, p);
    assert Filter([community], p) == [];
  }

  /** There is no emptiness guard for communities: removing the last one empties the selection. */
  lemma ToggleLastCommunity(community: string)
    ensures ToggleCommunity([community], community) == []
  {
    assert [community][1..] == [];
  }

  // ------------------------------------------------------------ date range

  /** A template literal's rendering of a field that may be undefined. */
  function FieldText(field: Option<string>): string
  {
    match field
    case None => "undefined"
    case Some(s) => s
  }

  /** The month choices `"01"` to `"12"`. */
  function Months(): (ms: seq<string>)
    ensures |ms| == 12
    ensures forall i :: 0 <= i < 12 ==> |ms[i]| == 2 && AllDigits(ms[i]) && DigitsValue(ms[i]) == i + 1
  {
    MonthsFrom(1)
  }

  /** The month choices from `m` to `"12"`. */
  function MonthsFrom(m: nat): (ms: seq<string>)
    requires 1 <= m <= 13
    ensures |ms| == 13 - m
    ensures forall i :: 0 <= i < |ms| ==> ms[i] == MonthText(m + i)
    decreases 13 - m
  {
    if m == 13 then [] else [MonthText(m)] + MonthsFrom(m + 1)
  }

  /** `String(m).padStart(2, '0')` for a month number. */
  function MonthText(m: nat): (s: string)
    requires 1 <= m <= 12
    ensures |s| == 2 && AllDigits(s) && DigitsValue(s) == m
  {
    var t := NatToString(m);
    if m < 10 then
      var s := "0" + t;
      assert s[..1] == "0" && "0"[..0] == [];
      s
    else t
  }

  /** Picking a start year: keep the start month, or use `"01"` when there is no start date. */
  function StartYearChange(startDate: string, year: string): string
  {
    year + "-" + (if startDate != [] then FieldText(SecondField(startDate)) else "01")
  }

  /** Picking a start month: keep the start year, or use the current year when there is no start date. */
  function StartMonthChange(startDate: string, month: string, currentYear: string): string
  {
    (if startDate != [] then FirstField(startDate) else currentYear) + "-" + month
  }

  /** The end-date guard: emit only when there is no start date or the new end is not before it. */
  function GuardEnd(startDate: string, newEnd: string): Option<string>
  {
    if startDate == [] || LexLe(startDate, newEnd) then Some(newEnd) else None
  }

  /** Picking an end year: keep the end month, or use `"12"`; then the guard. */
  function EndYearChange(startDate: string, endDate: string, year: string): Option<string>
  {
    GuardEnd(startDate, year + "-" + (if endDate != [] then FieldText(SecondField(endDate)) else "12"))
  }

  /** Picking an end month: keep the end year, or use the current year; then the guard. */
  function EndMonthChange(startDate: string, endDate: string, month: string, currentYear: string): Option<string>
  {
    GuardEnd(startDate, (if endDate != [] then FirstField(endDate) else currentYear) + "-" + month)
  }

  /** A `YYYY-MM` label. */
  predicate MonthLabel(s: string)
  {
    |s| == 7 && AllDigits(s[..4]) && s[4] == '-' && AllDigits(s[5..])
  }

  /** A four-digit year. */
  predicate YearText(y: string)
  {
    |y| == 4 && AllDigits(y)
  }

  /** Splitting a `YYYY-MM` label on '-' gives back its year and its month. */
  lemma MonthLabelFields(s: string)
    requires MonthLabel(s)
    ensures s == s[..4] + "-" + s[5..]
    ensures FirstField(s) == s[..4] && SecondField(s) == Some(s[5..])
  {
    assert s == s[..4] + "-" + s[5..];
    DigitsHaveNoDash(s[..4]);
    DigitsHaveNoDash(s[5..]);
    SplitJoin(s[..4], s[5..]);
  }

  /** Joining a year and a two-digit month gives a label whose fields are those two. */
  lemma JoinedLabel(year: string, month: string)
    requires YearText(year) && |month| == 2 && AllDigits(month)
    ensures MonthLabel(year + "-" + month)
    ensures FirstField(year + "-" + month) == year && SecondField(year + "-" + month) == Some(month)
  {
    var s := year + "-" + month;
    assert s[..4] == year && s[5..] == month;
    DigitsHaveNoDash(year);
    DigitsHaveNoDash(month);
    SplitJoin(year, month);
  }

  /**
   * Picking a start year on a well-formed (or empty) start date gives a
   * well-formed label with the picked year and the old month, or `"01"`.
   */
  lemma StartYearChangeLabel(startDate: string, year: string)
    requires startDate == [] || MonthLabel(startDate)
    requires YearText(year)
    ensures var r := StartYearChange(startDate, year);
      r == year + "-" + (if startDate == [] then "01" else startDate[5..]) &&
      MonthLabel(r) && FirstField(r) == year &&
      SecondField(r) == Some(if startDate == [] then "01" else startDate[5..])
  {
    if startDate != [] {
      MonthLabelFields(startDate);
      JoinedLabel(year, startDate[5..]);
    } else {
      JoinedLabel(year, "01");
    }
  }

  /**
   * Picking a start month from the offered months on a well-formed (or
   * empty) start date keeps its year (or takes the current one).
   */
  lemma StartMonthChangeLabel(startDate: string, k: nat, currentYear: string)
    requires startDate == [] || MonthLabel(startDate)
    requires k < 12 && YearText(currentYear)
    ensures var r := StartMonthChange(startDate, Months()[k], currentYear);
      MonthLabel(r) && SecondField(r) == Some(Months()[k]) &&
      FirstField(r) == if startDate == [] then currentYear else startDate[..4]
  {
    var month := Months()[k];
    if startDate != [] {
      MonthLabelFields(startDate);
      JoinedLabel(startDate[..4], month);
    } else {
      JoinedLabel(currentYear, month);
    }
  }

  /**
   * Picking an end year emits the candidate with the picked year and the
   * old month (or `"12"`) exactly when it is not before the start date.
   */
  lemma EndYearChangeGuarded(startDate: string, endDate: string, year: string)
    requires endDate == [] || MonthLabel(endDate)
    requires YearText(year)
    ensures var r := EndYearChange(startDate, endDate, year);
      var candidate := year + "-" + (if endDate == [] then "12" else endDate[5..]);
      MonthLabel(candidate) &&
      (r.Some? <==> startDate == [] || LexLe(startDate, candidate)) &&
      (r.Some? ==> r.value == candidate)
  {
    if endDate != [] {
      MonthLabelFields(endDate);
      JoinedLabel(year, endDate[5..]);
    } else {
      JoinedLabel(year, "12");
    }
  }

  /**
   * Picking an end month emits the candidate with the old year (or the
   * current one) exactly when it is not before the start date.
   */
  lemma EndMonthChangeGuarded(startDate: string, endDate: string, k: nat, currentYear: string)
    requires endDate == [] || MonthLabel(endDate)
    requires k < 12 && YearText(currentYear)
    ensures var r := EndMonthChange(startDate, endDate, Months()[k], currentYear);
      var candidate := (if endDate == [] then currentYear else endDate[..4]) + "-" + Months()[k];
      MonthLabel(candidate) &&
      (r.Some? <==> startDate == [] || LexLe(startDate, candidate)) &&
      (r.Some? ==> r.value == candidate)
  {
    var month := Months()[k];
    if endDate != [] {
      MonthLabelFields(endDate);
      JoinedLabel(endDate[..4], month);
    } else {
      JoinedLabel(currentYear, month);
    }
  }

  /** Labels with a common prefix compare like their remainders. */
  lemma {:induction false} LexLeCommonPrefix(p: string, a: string, b: string)
    ensures LexLe(p + a, p + b) == LexLe(a, b)
  {
    if p == [] {
      assert p + a == a && p + b == b;
    } else {
      assert (p + a)[0] == p[0] == (p + b)[0];
      assert (p + a)[1..] == p[1..] + a && (p + b)[1..] == p[1..] + b;
      LexLeCommonPrefix(p[1..], a, b);
    }
  }

  /**
   * Start changes are not guarded: on a valid range, picking the end's
   * year as start year when the start month is later than the end month
   * emits a start after the end (2023-06..2024-03 becomes 2024-06..2024-03).
   */
  lemma StartMayPassEnd(startDate: string, endDate: string)
    requires MonthLabel(startDate) && MonthLabel(endDate) && LexLe(startDate, endDate)
    requires LexLt(endDate[5..], startDate[5..])
    ensures LexLt(endDate, StartYearChange(startDate, endDate[..4]))
  {
    var year := endDate[..4];
    StartYearChangeLabel(startDate, year);
    MonthLabelFields(endDate);
    LexLeCommonPrefix(year + "-", endDate[5..], startDate[5..]);
    assert year + "-" + endDate[5..] == (year + "-") + endDate[5..];
    assert year + "-" + startDate[5..] == (year + "-") + startDate[5..];
  }
}

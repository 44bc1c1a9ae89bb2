/**
 The requested time window and the sealed UTC days in it.
 */
module Range {
  import opened Wrappers
  import opened Archive
  import opened Calendar

  // ----- ParseTimeRange ------------------------------------------------------------------------

  /** A bound of the request: absent or blank, or an expression with its evaluation at `now`. */
  datatype Bound = Blank | Given(value: Option<Instant>)

  datatype Window = Window(from: Instant, to: Instant) | MissingFrom | BadFrom | BadTo | Inverted

  function ParseTimeRange(from: Bound, to: Bound, now: Instant): Window {
    match from
    case Blank => MissingFrom
    case Given(None) => BadFrom
    case Given(Some(f)) =>
      match to
      case Given(None) => BadTo
      case Blank => if f > now then Inverted else Window(f, now)
      case Given(Some(t)) => if f > t then Inverted else Window(f, t)
  }

  // ----- DaysInRange ---------------------------------------------------------------------------

  datatype DaysResult = Days(names: seq<string>) | InvalidRange

  function Min(a: int, b: int): int { if a < b then a else b }

  /** The names of the days numbered from `a` up to but excluding `b`. */
  function NamesOf(a: int, b: int): (names: seq<string>)
    ensures |names| == if a < b then b - a else 0
    decreases b - a
  {
    if a < b then NamesOf(a, b - 1) + [Name(Civil(b - 1))] else []
  }

  lemma {:induction false} NamesOfAt(a: int, b: int, i: nat)
    requires i < |NamesOf(a, b)|
    ensures NamesOf(a, b)[i] == Name(Civil(a + i))
    decreases b - a
  {
    hide Name, Civil;
    if i < b - 1 - a {
      assert NamesOf(a, b)[i] == NamesOf(a, b - 1)[i];
      NamesOfAt(a, b - 1, i);
    }
  }

  /** The day a `to` bound stands for: the zero time means today. */
  function ToDay(to: Instant, now: Instant): int { if to == 0 then DayOf(now) else DayOf(to) }

  /** The result by day numbers, with neither truncation nor stepping. */
  function SealedDays(from: Instant, to: Instant, now: Instant): DaysResult {
    if DayOf(from) > ToDay(to, now) then InvalidRange
    else Days(NamesOf(DayOf(from), Min(ToDay(to, now), DayOf(now))))
  }

  method DaysInRange(from: Instant, to: Instant, now: Instant) returns (r: DaysResult)
    ensures r == SealedDays(from, to, now)
  {
    TruncateIsMidnight(from);
    TruncateIsMidnight(to);
    TruncateIsMidnight(now);
    hide TruncateUTC, AddDays, Name, Civil, NamesOf, DayOf;
    var today := TruncateUTC(now);
    var first := TruncateUTC(from);
    var last := if to == 0 then today else TruncateUTC(to);
    if first > last { return InvalidRange; }
    var bound := last;
    if bound > today { bound := today; }
    ghost var a, b := DayOf(from), Min(ToDay(to, now), DayOf(now));
    var days: seq<string> := [];
    var d := first;
    while d < bound
      invariant d == (a + |days|) * DAY
      invariant |days| > 0 ==> d <= bound
      invariant days == NamesOf(a, a + |days|)
      decreases bound - d
    {
      OneDayOn(a + |days|);
      NamesExtend(a, a + |days|);
      days := days + [Name(Civil(DayOf(d)))];
      d := AddDays(d, 1);
    }
    assert a < b ==> |days| == b - a;
    assert a >= b ==> days == [] == NamesOf(a, b);
    return Days(days);
  }

  lemma OneDayOn(n: int)
    ensures DayOf(n * DAY) == n && AddDays(n * DAY, 1) == (n + 1) * DAY
  {
    DayProduct(n, 1);
    AddDaysMoves(n * DAY, 1);
  }

  lemma NamesExtend(a: int, b: int)
    requires a <= b
    ensures NamesOf(a, b) + [Name(Civil(b))] == NamesOf(a, b + 1)
  {
    hide Name, Civil;
  }

  /** Stepping with AddDate visits consecutive calendar days. */
  lemma StepIsTomorrow(t: Instant)
    ensures Civil(DayOf(AddDays(t, 1))) == Tomorrow(Civil(DayOf(t)))
  {
    hide *;
    AddDaysMoves(t, 1);
    NextDayNumber(t);
    NextDayIsTomorrow(DayOf(t));
  }

  lemma NextDayNumber(t: Instant)
    ensures DayOf(t + 1 * DAY) == DayOf(t) + 1
  {
  }

  ghost predicate Distinct(names: seq<string>) {
    forall i, j :: 0 <= i < j < |names| ==> names[i] != names[j]
  }

  lemma NameOfDayInjective(a: int, b: int)
    requires Name(Civil(a)) == Name(Civil(b))
    ensures a == b
  {
    CivilOfDay(a);
    CivilOfDay(b);
    NameInjective(Civil(a), Civil(b));
  }

  lemma NamesOfExactly(a: int, b: int, day: int)
    ensures Name(Civil(day)) in NamesOf(a, b) <==> a <= day < b
  {
    var names := NamesOf(a, b);
    hide Civil, Name, NamesOf;
    if a <= day < b {
      NamesOfAt(a, b, day - a);
      assert names[day - a] in names;
    }
    if Name(Civil(day)) in names {
      var i :| 0 <= i < |names| && names[i] == Name(Civil(day));
      NamesOfAt(a, b, i);
      NameOfDayInjective(a + i, day);
    }
  }

  lemma NamesOfDistinct(a: int, b: int)
    ensures Distinct(NamesOf(a, b))
  {
    var names := NamesOf(a, b);
    hide Civil, Name, NamesOf;
    forall i, j | 0 <= i < j < |names| ensures names[i] != names[j] {
      NamesOfAt(a, b, i);
      NamesOfAt(a, b, j);
      if Name(Civil(a + i)) == Name(Civil(a + j)) { NameOfDayInjective(a + i, a + j); }
    }
  }

  /**
   A day is listed exactly when it is in [from, to) and before today, and it is listed once; there are
   as many as the day numbers differ by.
   */
  lemma SealedDaysExactly(from: Instant, to: Instant, now: Instant, day: int)
    requires SealedDays(from, to, now).Days?
    ensures var names, bound := SealedDays(from, to, now).names, Min(ToDay(to, now), DayOf(now));
            && (Name(Civil(day)) in names <==> DayOf(from) <= day < bound)
            && Distinct(names) && |names| == if DayOf(from) < bound then bound - DayOf(from) else 0
  {
    hide Civil, Name, NamesOf, DayOf, Distinct;
    NamesOfExactly(DayOf(from), Min(ToDay(to, now), DayOf(now)), day);
    NamesOfDistinct(DayOf(from), Min(ToDay(to, now), DayOf(now)));
  }

  lemma NamesOfAscend(a: int, i: int, j: int)
    requires i < j && 0 <= Civil(a + i).year <= 9999 && 0 <= Civil(a + j).year <= 9999
    ensures var x, y := Name(Civil(a + i)), Name(Civil(a + j)); Less(x, y) && |x| == |y| == 8
  {
    CivilOfDay(a + i);
    CivilOfDay(a + j);
    hide Civil, Name, DayNumber, Less, Legal;
    NamesSortAsDays(Civil(a + i), Civil(a + j));
    NamesSortAsDays(Civil(a + j), Civil(a + i));
  }

  /** The listed days ascend; through year 9999 so do their names, eight digits each. */
  lemma SealedDaysAscend(from: Instant, to: Instant, now: Instant, i: nat, j: nat)
    requires SealedDays(from, to, now).Days? && i < j < |SealedDays(from, to, now).names|
    requires 0 <= Civil(DayOf(from) + i).year <= 9999 && 0 <= Civil(DayOf(from) + j).year <= 9999
    ensures var names := SealedDays(from, to, now).names; Less(names[i], names[j]) && |names[i]| == |names[j]| == 8
  {
    hide *;
    NamesOfAscend(DayOf(from), i, j);
    SealedName(from, to, now, i);
    SealedName(from, to, now, j);
  }

  lemma SealedName(from: Instant, to: Instant, now: Instant, i: nat)
    requires SealedDays(from, to, now).Days? && i < |SealedDays(from, to, now).names|
    ensures SealedDays(from, to, now).names[i] == Name(Civil(DayOf(from) + i))
  {
    hide Civil, Name, NamesOf, DayOf;
    NamesOfAt(DayOf(from), Min(ToDay(to, now), DayOf(now)), i);
  }

  /** What ParseTimeRange makes of each request; the bounds it hands on are those that were asked for. */
  lemma ParseVerdict(from: Bound, to: Bound, now: Instant)
    ensures var w := ParseTimeRange(from, to, now);
            && (w.MissingFrom? <==> from == Blank)
            && (w.BadFrom? <==> from == Given(None))
            && (w.BadTo? <==> from != Blank && from != Given(None) && to == Given(None))
            && (w.Window? || w.Inverted? <==> from.Given? && from.value.Some? && to != Given(None))
            && (w.Window? ==> w.from == from.value.value && w.to == if to == Blank then now else to.value.value)
            && (w.Window? ==> w.from <= w.to)
  {
  }

  /** The day is one of those asked for by a window from `f` to `to`, and is sealed at `now`. */
  predicate Wanted(f: Instant, to: Bound, now: Instant, day: int)
    requires to != Given(None)
  {
    && DayOf(f) <= day < DayOf(now)
    && (to.Given? && to.value.value != 0 ==> day < DayOf(to.value.value))
  }

  /**
   A window from `f` is let through exactly when `f` is not after its end, which is `now` if none is given.
   Its range is then rejected in one case only: an explicit `to` that is the zero time stands for today, and
   today is before the day of `f`. Otherwise the days listed are those from the day of `f` up to but excluding
   the earlier of the day of `to` and today.
   */
  lemma RangeComposes(f: Instant, to: Bound, now: Instant, day: int)
    requires to != Given(None)
    ensures var w := ParseTimeRange(Given(Some(f)), to, now);
            && (w.Window? <==> f <= if to == Blank then now else to.value.value)
            && (w.Window? ==>
                  var r := SealedDays(w.from, w.to, now);
                  && (r.InvalidRange? <==> to == Given(Some(0)) && DayOf(now) < DayOf(f))
                  && (r.Days? ==> (Name(Civil(day)) in r.names <==> Wanted(f, to, now, day))))
  {
    var w := ParseTimeRange(Given(Some(f)), to, now);
    if w.Window? {
      DayOfMonotone(w.from, w.to);
      hide Civil, Name, NamesOf, DayOf;
      if SealedDays(w.from, w.to, now).Days? { SealedDaysExactly(w.from, w.to, now, day); }
    }
  }

  /** The window is refused: a bound is missing or cannot be read, or it ends before it begins. */
  predicate Refused(from: Bound, to: Bound, now: Instant) {
    || from == Blank || from == Given(None) || to == Given(None)
    || from.value.value > (if to == Blank then now else to.value.value)
    || (to == Given(Some(0)) && DayOf(now) < DayOf(from.value.value))
  }

  /** A window is refused as stated, and otherwise the days listed are exactly the days wanted. */
  lemma ListedAreWanted(from: Bound, to: Bound, now: Instant)
    ensures var w := ParseTimeRange(from, to, now);
            && (Refused(from, to, now) <==> !w.Window? || SealedDays(w.from, w.to, now).InvalidRange?)
            && (!Refused(from, to, now) ==>
                  var names := SealedDays(w.from, w.to, now).names;
                  && (forall day {:trigger Name(Civil(day))} :: Name(Civil(day)) in names <==>
                        Wanted(from.value.value, to, now, day))
                  && (forall i :: 0 <= i < |names| ==> names[i] == Name(Civil(DayOf(from.value.value) + i))))
  {
    ParseVerdict(from, to, now);
    var w := ParseTimeRange(from, to, now);
    hide ParseTimeRange, SealedDays, Wanted, DayOf, Name, Civil;
    if w.Window? || w.Inverted? { RangeComposes(from.value.value, to, now, 0); }
    if !Refused(from, to, now) {
      var names := SealedDays(w.from, w.to, now).names;
      forall day {:trigger Name(Civil(day))} ensures Name(Civil(day)) in names <==> Wanted(from.value.value, to, now, day) {
        RangeComposes(from.value.value, to, now, day);
      }
      forall i | 0 <= i < |names| ensures names[i] == Name(Civil(DayOf(from.value.value) + i)) {
        SealedName(w.from, w.to, now, i);
      }
    }
  }

  /** With a clock that is not before the zero time a window that was let through is never rejected. */
  lemma RangeNotRejected(from: Bound, to: Bound, now: Instant)
    requires ParseTimeRange(from, to, now).Window? && now >= 0
    ensures var w := ParseTimeRange(from, to, now); SealedDays(w.from, w.to, now).Days?
  {
    var w := ParseTimeRange(from, to, now);
    DayOfMonotone(w.from, w.to);
    if w.to == 0 { DayOfMonotone(w.from, now); }
    hide NamesOf, DayOf;
  }

  /**
   No day at or after that of an explicit `to` should be listed. One is, if and only if `to` is the zero
   time, which stands for today, and the day is before today.
   */
  lemma ListedPastTo(from: Bound, t: Instant, now: Instant, day: int)
    requires var w := ParseTimeRange(from, Given(Some(t)), now); w.Window? && SealedDays(w.from, w.to, now).Days?
    requires day >= DayOf(t)
    ensures var w := ParseTimeRange(from, Given(Some(t)), now);
            Name(Civil(day)) in SealedDays(w.from, w.to, now).names <==> t == 0 && day < DayOf(now)
  {
    var w := ParseTimeRange(from, Given(Some(t)), now);
    DayOfMonotone(w.from, w.to);
    SealedDaysExactly(w.from, w.to, now, day);
    hide Civil, Name, NamesOf, DayOf, SealedDays;
  }

  /** From the zero time to the zero time is an empty window, and every day before today is listed. */
  lemma ZeroWindowListsAll(now: Instant, day: int)
    requires now >= DAY
    ensures ParseTimeRange(Given(Some(0)), Given(Some(0)), now) == Window(0, 0)
    ensures SealedDays(0, 0, now).Days? && |SealedDays(0, 0, now).names| == DayOf(now) > 0
    ensures Name(Civil(day)) in SealedDays(0, 0, now).names <==> 0 <= day < DayOf(now)
  {
    DayOfMonotone(DAY, now);
    assert DayOf(0) == 0 && DayOf(DAY) == 1;
    hide Civil, Name, NamesOf, DayOf;
    SealedDaysExactly(0, 0, now, day);
  }

  lemma DayOfMonotone(a: Instant, b: Instant)
    requires a <= b
    ensures DayOf(a) <= DayOf(b)
  {
  }

  /**
   The two phases of a migrate share one `now`: today is never sealed, and with `to` left out every
   day from that of `from` to today is in exactly one phase.
   */
  lemma PhasesPartition(f: Instant, to: Bound, now: Instant, day: int)
    requires var w := ParseTimeRange(Given(Some(f)), to, now); w.Window? && SealedDays(w.from, w.to, now).Days?
    ensures var w := ParseTimeRange(Given(Some(f)), to, now);
            var sealed, recent := SealedDays(w.from, w.to, now).names, Name(Civil(DayOf(now)));
            && recent !in sealed
            && (to == Blank && DayOf(f) <= day <= DayOf(now) ==>
                  (Name(Civil(day)) in sealed <==> Name(Civil(day)) != recent))
  {
    hide Civil, Name, NamesOf, DayOf, SealedDays, ParseTimeRange;
    ParseVerdict(Given(Some(f)), to, now);
    RangeComposes(f, to, now, DayOf(now));
    RangeComposes(f, to, now, day);
    if Name(Civil(day)) == Name(Civil(DayOf(now))) { NameOfDayInjective(day, DayOf(now)); }
  }
}

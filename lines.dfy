/** One activity line of a weekly report (`activity.weekly.report.line`):
    its selection fields and their defaults, its duration in days, and the
    default order in which a report lists its lines. */
module ActivityLines {
  import opened Wrappers
  import opened Dates

  /** Selection `status`; the stored keys are todo, in_progress, done, blocked. */
  datatype Status = Todo | InProgress | Done | Blocked

  function StatusKey(s: Status): (k: string)
    ensures k in {"todo", "in_progress", "done", "blocked"}
  {
    match s
    case Todo => "todo"
    case InProgress => "in_progress"
    case Done => "done"
    case Blocked => "blocked"
  }

  function StatusFromKey(k: string): (s: Option<Status>)
    ensures s.Some? ==> StatusKey(s.value) == k
  {
    if k == "todo" then Some(Todo)
    else if k == "in_progress" then Some(InProgress)
    else if k == "done" then Some(Done)
    else if k == "blocked" then Some(Blocked)
    else None
  }

  /** Selection `priority`; the stored keys are "0" (low) to "3" (critical). */
  datatype Priority = Low | Normal | High | Critical

  function PriorityKey(p: Priority): (k: string)
    ensures k in {"0", "1", "2", "3"}
  {
    match p
    case Low => "0"
    case Normal => "1"
    case High => "2"
    case Critical => "3"
  }

  function PriorityFromKey(k: string): (p: Option<Priority>)
    ensures p.Some? ==> PriorityKey(p.value) == k
  {
    if k == "0" then Some(Low)
    else if k == "1" then Some(Normal)
    else if k == "2" then Some(High)
    else if k == "3" then Some(Critical)
    else None
  }

  /** The selection keys name each value exactly once. */
  lemma {:induction false} SelectionKeysRoundTrip(s: Status, p: Priority)
    ensures StatusFromKey(StatusKey(s)) == Some(s)
    ensures PriorityFromKey(PriorityKey(p)) == Some(p)
  {
    match s
    case Todo =>
    case InProgress =>
    case Done =>
    case Blocked =>
  }

  /** The position of a priority in the order of its keys "0" < "1" < "2" < "3". */
  function Rank(p: Priority): (r: nat)
    ensures r < 4
    ensures PriorityKey(p) == [('0' as int + r) as char]
  {
    match p
    case Low => 0
    case Normal => 1
    case High => 2
    case Critical => 3
  }

  datatype Line = Line(
    name: string,
    dateStart: Option<Date>,
    dateEnd: Option<Date>,
    status: Status,
    priority: Priority,
    progress: int)

  /** A line created with only its title and dates: every other field takes its default. */
  function NewLine(name: string, dateStart: Option<Date>, dateEnd: Option<Date>): (l: Line)
    ensures l.name == name && l.dateStart == dateStart && l.dateEnd == dateEnd
    ensures l.status == Todo && StatusKey(l.status) == "todo"
    ensures l.priority == Normal && PriorityKey(l.priority) == "1"
    ensures l.progress == 0
  {
    Line(name, dateStart, dateEnd, Todo, Normal, 0)
  }

  /** Inclusive day count from `dateStart` to `dateEnd`, 0 when either is unset.
      Nothing requires the end to come after the start. */
  function Duration(l: Line): (days: int)
    ensures l.dateStart.None? || l.dateEnd.None? ==> days == 0
    ensures l.dateStart.Some? && l.dateEnd.Some? ==>
              (days >= 1 <==> DateLe(l.dateStart.value, l.dateEnd.value))
  {
    if l.dateStart.Some? && l.dateEnd.Some? then
      OrdinalOrder(l.dateStart.value, l.dateEnd.value);
      ToOrdinal(l.dateEnd.value) - ToOrdinal(l.dateStart.value) + 1
    else
      0
  }

  /** A line that starts and ends on the same day lasts one day. */
  lemma SameDayLastsOneDay(l: Line)
    requires l.dateStart.Some? && l.dateStart == l.dateEnd
    ensures Duration(l) == 1
  {
  }

  /** With the dates in the wrong order the duration is zero or negative. */
  lemma ReversedDatesNonPositive(l: Line)
    requires l.dateStart.Some? && l.dateEnd.Some?
    requires DateBefore(l.dateEnd.value, l.dateStart.value)
    ensures Duration(l) <= 0
  {
    OrdinalOrder(l.dateEnd.value, l.dateStart.value);
  }

  /** Ending one calendar day later lengthens the line by exactly one day. */
  lemma EndOneDayLater(l: Line)
    requires l.dateStart.Some? && l.dateEnd.Some? && !IsMaxDate(l.dateEnd.value)
    ensures Duration(l.(dateEnd := Some(NextDay(l.dateEnd.value)))) == Duration(l) + 1
  {
    NextDayOrdinal(l.dateEnd.value);
  }

  /** The day numbers from `lo` to `hi`, both included. */
  function DayRange(lo: int, hi: int): set<int>
    decreases hi - lo
  {
    if lo > hi then {} else DayRange(lo, hi - 1) + {hi}
  }

  lemma {:induction false} DayRangeMembers(lo: int, hi: int, o: int)
    ensures o in DayRange(lo, hi) <==> lo <= o <= hi
    decreases hi - lo
  {
    if lo <= hi {
      DayRangeMembers(lo, hi - 1, o);
    }
  }

  lemma {:induction false} DayRangeSize(lo: int, hi: int)
    requires lo <= hi + 1
    ensures |DayRange(lo, hi)| == hi - lo + 1
    decreases hi - lo
  {
    if lo <= hi {
      DayRangeMembers(lo, hi - 1, hi);
      DayRangeSize(lo, hi - 1);
    }
  }

  /** For a line whose end is not before its start, the duration is the
      number of calendar days it covers, first and last included. */
  lemma DurationCountsCoveredDays(l: Line)
    requires l.dateStart.Some? && l.dateEnd.Some?
    requires DateLe(l.dateStart.value, l.dateEnd.value)
    ensures Duration(l) == |DayRange(ToOrdinal(l.dateStart.value), ToOrdinal(l.dateEnd.value))|
  {
    OrdinalOrder(l.dateStart.value, l.dateEnd.value);
    DayRangeSize(ToOrdinal(l.dateStart.value), ToOrdinal(l.dateEnd.value));
  }

  /** A line from 2024-01-01 to 2024-01-03 lasts three days. */
  lemma ThreeDayExample(l: Line)
    requires l.dateStart == Some(YearMonthDay(2024, 1, 1))
    requires l.dateEnd == Some(YearMonthDay(2024, 1, 3))
    ensures Duration(l) == 3
  {
  }

  /** Start dates ascending; a line without a start date comes after every
      dated one (PostgreSQL's default for an ascending key). */
  function StartNotAfter(a: Option<Date>, b: Option<Date>): (r: bool)
    ensures a.Some? && b.Some? ==> (r <==> ToOrdinal(a.value) <= ToOrdinal(b.value))
    ensures a.Some? && b.None? ==> r
    ensures a.None? ==> (r <==> b.None?)
  {
    match (a, b)
    case (Some(x), Some(y)) => OrdinalOrder(x, y); DateLe(x, y)
    case (Some(_), None) => true
    case (None, Some(_)) => false
    case (None, None) => true
  }

  /** `_order = "priority desc, date_start"`: `a` may be listed before `b`. */
  function ListedBefore(a: Line, b: Line): (r: bool)
    ensures r ==> Rank(a.priority) >= Rank(b.priority)
    ensures Rank(a.priority) > Rank(b.priority) ==> r
    ensures Rank(a.priority) == Rank(b.priority) ==> (r <==> StartNotAfter(a.dateStart, b.dateStart))
  {
    || Rank(a.priority) > Rank(b.priority)
    || (Rank(a.priority) == Rank(b.priority) && StartNotAfter(a.dateStart, b.dateStart))
  }

  /** The line order is a total preorder. */
  lemma ListedBeforeTotalPreorder(a: Line, b: Line, c: Line)
    ensures ListedBefore(a, a)
    ensures ListedBefore(a, b) || ListedBefore(b, a)
    ensures ListedBefore(a, b) && ListedBefore(b, c) ==> ListedBefore(a, c)
  {
    if a.dateStart.Some? && b.dateStart.Some? && c.dateStart.Some? {
      OrdinalOrder(a.dateStart.value, b.dateStart.value);
      OrdinalOrder(b.dateStart.value, c.dateStart.value);
      OrdinalOrder(a.dateStart.value, c.dateStart.value);
    }
  }

  /** Each line may be listed before the one that follows it. */
  predicate InLineOrder(s: seq<Line>) {
    forall i :: 0 <= i < |s| - 1 ==> ListedBefore(s[i], s[i + 1])
  }

  lemma {:induction false} InLineOrderPairwise(s: seq<Line>, i: int, j: int)
    requires InLineOrder(s) && 0 <= i < j < |s|
    ensures ListedBefore(s[i], s[j])
    decreases j - i
  {
    if i + 1 < j {
      InLineOrderPairwise(s, i + 1, j);
      ListedBeforeTotalPreorder(s[i], s[i + 1], s[j]);
    }
  }

  /** In the default order every line of higher priority comes before every
      line of lower priority. */
  lemma HigherPriorityListedFirst(s: seq<Line>, i: int, j: int)
    requires InLineOrder(s) && 0 <= i < |s| && 0 <= j < |s|
    requires Rank(s[i].priority) > Rank(s[j].priority)
    ensures i < j
  {
    if j < i {
      InLineOrderPairwise(s, j, i);
    }
  }

  /** Among lines of equal priority, the default order is by start date. */
  lemma EqualPriorityByStartDate(s: seq<Line>, i: int, j: int)
    requires InLineOrder(s) && 0 <= i < j < |s|
    requires s[i].priority == s[j].priority
    ensures StartNotAfter(s[i].dateStart, s[j].dateStart)
  {
    InLineOrderPairwise(s, i, j);
  }
}

/**
 * The firm admin's safety class table: the completed / upcoming tabs over
 * the firm's trainings and the status badge of each row.
 */
module SafetyClasses {
  import opened Wrappers
  import opened Text
  import opened Lists
  import opened Entities
  import opened Session

  const Policy := AuthPolicy(FirmAdmin, true,
    "Access Denied: Only Firm Admins can view safety classes.",
    "Firm Admin not assigned to a firm. Cannot display safety classes.",
    false)

  /** `fetchTrainings`: the guard empties the list. */
  function AfterFetch(caller: Option<UserData>, fetched: seq<Training>): (r: seq<Training>)
    ensures FirmScopedFetch(caller).None? ==> r == []
    ensures FirmScopedFetch(caller).Some? ==> r == fetched
  {
    if FirmScopedFetch(caller).Some? then fetched else []
  }

  datatype Tab = Completed | Upcoming

  /**
   * A training is on a tab only when both its dates are valid: on Completed
   * when it ended before now, on Upcoming when it starts now or later.
   */
  predicate OnTab(t: Training, tab: Tab, now: int) {
    t.startTime.Some? && t.endTime.Some? &&
    match tab
    case Completed => t.endTime.value < now
    case Upcoming => t.startTime.value >= now
  }

  /** `filteredTrainings`. */
  function FilteredTrainings(trainings: seq<Training>, tab: Tab, now: int): (r: seq<Training>)
    ensures IsSubseq(r, trainings)
    ensures forall i :: 0 <= i < |r| ==> OnTab(r[i], tab, now)
    ensures forall i :: 0 <= i < |trainings| && OnTab(trainings[i], tab, now) ==> trainings[i] in r
  {
    Filter(trainings, (t: Training) => OnTab(t, tab, now))
  }

  /** A training that does not end before it starts is never on both tabs. */
  lemma TabsDisjoint(trainings: seq<Training>, now: int, t: Training)
    requires t.startTime.Some? && t.endTime.Some? && t.startTime.value <= t.endTime.value
    ensures !(t in FilteredTrainings(trainings, Completed, now) && t in FilteredTrainings(trainings, Upcoming, now))
  {
    if t in FilteredTrainings(trainings, Completed, now) {
      var i :| 0 <= i < |FilteredTrainings(trainings, Completed, now)| && FilteredTrainings(trainings, Completed, now)[i] == t;
    }
    if t in FilteredTrainings(trainings, Upcoming, now) {
      var i :| 0 <= i < |FilteredTrainings(trainings, Upcoming, now)| && FilteredTrainings(trainings, Upcoming, now)[i] == t;
    }
  }

  /** A class that has started but not yet ended, or one with an invalid date, is on neither tab. */
  lemma RunningOrUndatedOnNeitherTab(t: Training, now: int)
    requires t.startTime.None? || t.endTime.None? || t.startTime.value < now <= t.endTime.value
    ensures !OnTab(t, Completed, now) && !OnTab(t, Upcoming, now)
  {
  }

  /** A training with valid dates is completed, upcoming, or in progress: exactly one of the three. */
  lemma DatedTrainingPlaced(t: Training, now: int)
    requires t.startTime.Some? && t.endTime.Some? && t.startTime.value <= t.endTime.value
    ensures OnTab(t, Completed, now) || OnTab(t, Upcoming, now) || t.startTime.value < now <= t.endTime.value
    ensures !(OnTab(t, Completed, now) && OnTab(t, Upcoming, now))
    ensures t.startTime.value < now <= t.endTime.value ==> !OnTab(t, Completed, now) && !OnTab(t, Upcoming, now)
  {
  }

  /** The badge's class: the lower-cased status, or "unknown" for a null or empty status. */
  function BadgeClass(status: Option<string>): (r: string)
    ensures StartsWith(r, "crancy-table__status status--")
    ensures Truthy(status) ==> r == "crancy-table__status status--" + Lower(status.value)
    ensures !Truthy(status) ==> r == "crancy-table__status status--unknown"
  {
    "crancy-table__status status--" + (if Truthy(status) then Lower(status.value) else "unknown")
  }

  datatype StatusIcon = NoIcon | CheckIcon | ClockIcon

  /** The badge's icon: a check for approved or completed, a clock for pending, in any letter case. */
  function Icon(status: Option<string>): (r: StatusIcon)
    ensures r == CheckIcon <==> status.Some? && (Lower(status.value) == "approved" || Lower(status.value) == "completed")
    ensures r == ClockIcon <==> status.Some? && Lower(status.value) == "pending"
  {
    if status.None? then NoIcon
    else if Lower(status.value) == "approved" || Lower(status.value) == "completed" then CheckIcon
    else if Lower(status.value) == "pending" then ClockIcon
    else NoIcon
  }

  /** The badge's text: the status with its first letter upper-cased, or "Unknown". */
  function StatusLabel(status: Option<string>): (r: string)
    ensures !Truthy(status) ==> r == "Unknown"
    ensures Truthy(status) ==> |r| == |status.value| && r[0] == UpperChar(status.value[0]) && r[1..] == status.value[1..]
  {
    if Truthy(status) then [UpperChar(status.value[0])] + status.value[1..] else "Unknown"
  }

  /** Label and class describe the same status: the label, lower-cased, is the class suffix. */
  lemma LabelMatchesBadge(status: Option<string>)
    requires Truthy(status)
    ensures "crancy-table__status status--" + Lower(StatusLabel(status)) == BadgeClass(status)
  {
    var s := status.value;
    var shown := StatusLabel(status);
    assert Lower(shown) == Lower(s) by {
      forall i | 0 <= i < |s|
        ensures Lower(shown)[i] == Lower(s)[i]
      {
        if i == 0 {
          assert LowerChar(UpperChar(s[0])) == LowerChar(s[0]);
        } else {
          assert shown[i] == shown[1..][i - 1] == s[1..][i - 1] == s[i];
        }
      }
    }
  }

  /** The duration cell. */
  function DurationText(t: Training): (r: string)
    ensures r != ""
    ensures Truthy(t.duration) ==> r == t.duration.value
    ensures !Truthy(t.duration) ==> r == "N/A"
  {
    OrElse(t.duration, "N/A")
  }
}

/**
 * The compact task card: the due badge, the time line, and the payload sent
 * when its timer reports. Day counts come in as integers.
 */
module TaskCard {
  import opened Options
  import opened Numerals
  import opened Durations
  import opened StudyTypes

  datatype BadgeVariant = Destructive | Default | Secondary

  /** `getDueBadgeVariant`: overdue, today or tomorrow are urgent; two or three days ahead are normal. */
  function DueBadgeVariant(days: int): (v: BadgeVariant)
    ensures v == Destructive <==> days <= 1
    ensures v == Default <==> 2 <= days <= 3
    ensures v == Secondary <==> days > 3
  {
    if days < 0 then Destructive
    else if days <= 1 then Destructive
    else if days <= 3 then Default
    else Secondary
  }

  /** The due badge is drawn only up to three days ahead (overdue included). */
  predicate ShowsDueBadge(days: int)
  {
    days <= 3
  }

  /** The badge text. */
  function DueLabel(days: int): (text: string)
    ensures days == 0 <==> text == "Today"
    ensures days == 1 <==> text == "Tomorrow"
    ensures days < 0 <==> text == "Overdue"
    ensures days > 1 ==> text == NatToString(days) + "d"
  {
    if days == 0 then "Today"
    else if days == 1 then "Tomorrow"
    else if days < 0 then "Overdue"
    else
      var t := NatToString(days) + "d";
      assert IsDigit(t[0]) && !IsDigit('T') && !IsDigit('O');
      t
  }

  /** A day-count label reads back as the number of days. */
  lemma DueLabelReadsBack(days: int)
    requires days > 1
    ensures ReadNat(DueLabel(days)) == Some((days as nat, "d"))
  {
    ReadNatToString(days as nat, "d");
  }

  /** `handleTimeUpdate`: the task with only `timeSpent` replaced by the reported total. */
  function TimeUpdate(task: StudyTask, newTimeSpent: nat): (r: StudyTask)
    ensures r.timeSpent == newTimeSpent
    ensures r.(timeSpent := task.timeSpent) == task
  {
    task.(timeSpent := newTimeSpent)
  }

  /** What the time line of a card shows. */
  datatype TimeLine = TimerShown(initialTime: nat) | SpentShown(text: string) | NothingShown

  /** In progress: a timer from the task's time; otherwise the time spent, when there is any. */
  function TimeLineOf(task: StudyTask): (r: TimeLine)
    ensures r.TimerShown? <==> task.status == InProgress
    ensures r.TimerShown? ==> r.initialTime == task.timeSpent
    ensures r.SpentShown? <==> task.status != InProgress && task.timeSpent > 0
    ensures r.SpentShown? ==> ParseCompact(r.text) == Some((Hours(task.timeSpent), MinutesPart(task.timeSpent)))
  {
    CompactRoundTrip(task.timeSpent);
    if task.status == InProgress then TimerShown(task.timeSpent)
    else if task.timeSpent > 0 then SpentShown(Compact(task.timeSpent))
    else NothingShown
  }
}

/** The auto-save indicator: how long ago the last save was, in words, and the status dot,
    tooltip and spinner for the saving, unsaved and saved states.

    Times are milliseconds since the epoch; the current time is the `now` parameter, and
    the locale's date text for saves a day old or more is the `dateText` parameter. */
module AutoSaveIndicator {
  import opened Base
  import opened Strings

  /** `Math.floor((now - date) / 1000)`: whole seconds elapsed, rounded down (also for a
      save stamped in the future). */
  function Elapsed(now: int, date: int): int
  {
    (now - date) / 1000
  }

  /** `formatLastSaved`: None without a last save; otherwise "Just now" under 5 seconds,
      then seconds, minutes and hours ago, and the date from a day on. */
  function FormatLastSaved(lastSaved: Option<int>, now: int, dateText: string): Option<string>
  {
    if lastSaved.None? then None
    else
      var diff := Elapsed(now, lastSaved.value);
      if diff < 5 then Some("Just now")
      else if diff < 60 then Some(Decimal(diff) + "s ago")
      else if diff < 3600 then Some(Decimal(diff / 60) + "m ago")
      else if diff < 86400 then Some(Decimal(diff / 3600) + "h ago")
      else Some(dateText)
  }

  /** The shown count is the elapsed time in whole units, rounded down: 5 to 59 seconds,
      1 to 59 minutes or 1 to 23 hours (`DecimalRoundTrip` reads each back). */
  lemma FormatMeaning(lastSaved: Option<int>, now: int, dateText: string)
    ensures lastSaved.None? ==> FormatLastSaved(lastSaved, now, dateText).None?
    ensures lastSaved.Some? ==>
      var diff := Elapsed(now, lastSaved.value);
      var r := FormatLastSaved(lastSaved, now, dateText);
      && r.Some?
      && (diff < 5 ==> r.value == "Just now")
      && (5 <= diff < 60 ==> r.value == Decimal(diff) + "s ago")
      && (60 <= diff < 3600 ==>
            exists k: nat :: 1 <= k < 60 && k * 60 <= diff < (k + 1) * 60 && r.value == Decimal(k) + "m ago")
      && (3600 <= diff < 86400 ==>
            exists k: nat :: 1 <= k < 24 && k * 3600 <= diff < (k + 1) * 3600 && r.value == Decimal(k) + "h ago")
      && (86400 <= diff ==> r.value == dateText)
  {
    if lastSaved.Some? {
      var diff := Elapsed(now, lastSaved.value);
      if 60 <= diff < 3600 {
        var k := diff / 60;
        assert k * 60 <= diff < (k + 1) * 60;
      } else if 3600 <= diff < 86400 {
        var k := diff / 3600;
        assert k * 3600 <= diff < (k + 1) * 3600;
      }
    }
  }

  /** The dot colour, tooltip and spinner `getStatusInfo` returns. */
  datatype StatusInfo = StatusInfo(dotColor: string, tooltip: string, showSpinner: bool)

  /** `getStatusInfo`: saving first, then unsaved changes, then saved. */
  function GetStatusInfo(isSaving: bool, hasUnsavedChanges: bool, lastSaved: Option<int>, now: int,
                         dateText: string): StatusInfo
  {
    if isSaving then StatusInfo("bg-blue-500", "Saving changes...", true)
    else if hasUnsavedChanges then StatusInfo("bg-amber-500", "Unsaved changes", false)
    else
      var timeText := FormatLastSaved(lastSaved, now, dateText);
      StatusInfo("bg-green-500",
                 if timeText.Some? && timeText.value != "" then "Saved " + timeText.value else "All changes saved",
                 false)
  }

  /** Saving wins over unsaved changes, which win over saved; the spinner shows exactly
      while saving; a saved state names its time when a last save is known and the time
      text is not empty, and says all changes are saved otherwise. */
  lemma StatusPrecedence(isSaving: bool, hasUnsavedChanges: bool, lastSaved: Option<int>, now: int,
                         dateText: string)
    ensures var s := GetStatusInfo(isSaving, hasUnsavedChanges, lastSaved, now, dateText);
      && (s.showSpinner <==> isSaving)
      && (s.dotColor == "bg-blue-500" <==> isSaving)
      && (s.dotColor == "bg-amber-500" <==> !isSaving && hasUnsavedChanges)
      && (s.dotColor == "bg-green-500" <==> !isSaving && !hasUnsavedChanges)
      && (!isSaving && !hasUnsavedChanges ==>
            && (lastSaved.None? ==> s.tooltip == "All changes saved")
            && (lastSaved.Some? && Elapsed(now, lastSaved.value) < 86400 ==>
                  s.tooltip == "Saved " + FormatLastSaved(lastSaved, now, dateText).value)
            && (lastSaved.Some? && Elapsed(now, lastSaved.value) >= 86400 ==>
                  s.tooltip == if dateText != "" then "Saved " + dateText else "All changes saved"))
  {
    if !isSaving && !hasUnsavedChanges && lastSaved.Some? {
      FormatMeaning(lastSaved, now, dateText);
      var t := FormatLastSaved(lastSaved, now, dateText).value;
      var diff := Elapsed(now, lastSaved.value);
      if 5 <= diff < 86400 {
        assert |t| > 0;
      }
    }
  }
}

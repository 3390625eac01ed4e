/**
 * The `datetime` values the pipeline passes around, as an abstract record.
 * Parsing (`datetime.strptime`) is an oracle supplied by the caller; the three
 * renderings the source uses (`isoformat()`, `str(d.date())` and
 * `strftime("%Y-%m-%d %H:%M")`) are written out.
 */
module Timestamps {
  import opened Wrappers
  import opened Text

  datatype DateTime = DateTime(year: nat, month: nat, day: nat, hour: nat, minute: nat, second: nat)

  /** The three accepted layouts, in the order they are tried. */
  datatype DateFormat =
    | SlashMinute   // "%Y/%m/%d %H:%M"
    | SlashDate     // "%Y/%m/%d"
    | DashSecond    // "%Y-%m-%d %H:%M:%S"

  /** `datetime.strptime(text, format)`: `None` where it raises ValueError. */
  type Strptime = (string, DateFormat) -> Option<DateTime>

  /** `str(d.date())`, e.g. "2025-01-07". */
  function DateText(d: DateTime): (r: string)
    ensures |r| == 10 && r[4] == '-' && r[7] == '-'
  {
    PadNat(d.year, 4) + "-" + PadNat(d.month, 2) + "-" + PadNat(d.day, 2)
  }

  /** `d.isoformat()`, e.g. "2025-01-07T17:45:00" (no microseconds: none are ever parsed). */
  function IsoFormat(d: DateTime): (r: string)
    ensures |r| == 19 && r[..10] == DateText(d) && r[10] == 'T'
    ensures forall i :: 0 <= i < |r| ==> IsDigit(r[i]) || r[i] in "-T:"
  {
    DateText(d) + "T" + PadNat(d.hour, 2) + ":" + PadNat(d.minute, 2) + ":" + PadNat(d.second, 2)
  }

  /** `d.strftime("%Y-%m-%d %H:%M")`, e.g. "2025-01-07 17:45". */
  function MinuteText(d: DateTime): (r: string)
    ensures |r| == 16 && r[..10] == DateText(d) && r[10] == ' '
  {
    DateText(d) + " " + PadNat(d.hour, 2) + ":" + PadNat(d.minute, 2)
  }
}

/**
  The text of the fields that the final receipt rewrites, and of the summary's: that the lengths
  `StorageProjection` and `SummarySize` count with are lengths of this text.
 */
module ReceiptText {
  import opened Wrappers
  import opened Basics
  import opened Decimal
  import opened StorageProjection
  import Z = SummarySize

  function Numeral(n: nat): string {
    if n < 10 then ["0123456789"[n]] else Numeral(n / 10) + ["0123456789"[n % 10]]
  }

  function StatusText(s: Status): string {
    match s
    case Complete => "COMPLETE"
    case FailedCommand => "FAILED"
    case Violated => "VIOLATED"
    case MonitorError => "MONITOR_ERROR"
  }

  function ViolationText(v: Violation): string {
    match v
    case AddedBytes => "\"max_added_workspace_bytes\""
    case AddedInodes => "\"max_added_workspace_inodes\""
    case WallSeconds => "\"max_wall_seconds\""
    case Other(encoded) => encoded
  }

  function NumberText(n: Option<nat>): string { if n.Some? then Numeral(n.value) else "null" }

  /** Elements, each after the first behind `separator`. */
  function Joined(vs: seq<Violation>, separator: string): string {
    if vs == [] then ""
    else if |vs| == 1 then ViolationText(vs[0])
    else Joined(vs[..|vs| - 1], separator) + separator + ViolationText(vs[|vs| - 1])
  }

  function CompactText(vs: seq<Violation>): string { "[" + Joined(vs, ",") + "]" }

  /** One element a line, four blanks in, and the closing bracket two blanks in. */
  function IndentedText(vs: seq<Violation>): string {
    if vs == [] then "[]" else "[\n    " + Joined(vs, ",\n    ") + "\n  ]"
  }

  /** What the receipt rewrites, field after field. */
  function FieldsText(r: Receipt): string {
    StatusText(r.status) + NumberText(r.peakBytes) + NumberText(r.peakInodes)
    + NumberText(r.finalBytes) + NumberText(r.finalInodes)
  }

  lemma {:induction false} NumeralLength(n: nat)
    ensures |Numeral(n)| == Digits(n)
  {
    if n >= 10 { NumeralLength(n / 10); }
  }

  lemma NumberTextLength(n: Option<nat>)
    ensures |NumberText(n)| == NumberLength(n)
  {
    if n.Some? { NumeralLength(n.value); }
  }

  lemma ViolationTextLength(v: Violation)
    ensures |ViolationText(v)| == ViolationLength(v)
  {
  }

  lemma {:induction false} JoinedLength(vs: seq<Violation>, separator: string)
    requires vs != [] && (|separator| == 1 || |separator| == 6)
    ensures |Joined(vs, separator)|
         == Sum(vs) + if |separator| == 1 then |vs| - 1 else 6 * (|vs| - 1)
  {
    var k := |vs| - 1;
    ViolationTextLength(vs[k]);
    if k > 0 { JoinedLength(vs[..k], separator); } else { assert Sum(vs[..0]) == 0; }
  }

  lemma CompactLength(vs: seq<Violation>)
    ensures |CompactText(vs)| == CompactList(vs)
  {
    if vs != [] { JoinedLength(vs, ","); }
  }

  lemma IndentedLength(vs: seq<Violation>)
    ensures |IndentedText(vs)| == IndentedList(vs)
  {
    if vs != [] { JoinedLength(vs, ",\n    "); }
  }

  /** The pending bytes are the lengths of both encodings, the frames and the rewritten fields. */
  lemma PendingIsText(f: Frame, r: Receipt)
    ensures Pending(f, r) == f.compact + |FieldsText(r) + CompactText(r.violations)|
                             + f.indented + |FieldsText(r) + IndentedText(r.violations)|
  {
    NumberTextLength(r.peakBytes);
    NumberTextLength(r.peakInodes);
    NumberTextLength(r.finalBytes);
    NumberTextLength(r.finalInodes);
    CompactLength(r.violations);
    IndentedLength(r.violations);
  }

  function FlagText(flag: bool): string { if flag then "true" else "false" }

  /** So is the summary's size. */
  lemma SummaryIsText(size: nat, frame: nat, s: Z.Summary)
    ensures Z.Total(size, frame, s)
         == size + frame + |Numeral(s.evidenceBytes) + FlagText(s.sizeCheck) + "\n"|
  {
    NumeralLength(s.evidenceBytes);
  }
}

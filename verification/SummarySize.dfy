/**
  The end of `collect` in `lab_job.py`: the summary states the size of all the evidence, itself
  included, and is rewritten until what it states is so.
 */
module SummarySize {
  import opened Decimal

  // The fields that the loop rewrites; PASS and FAIL have the same length.
  datatype Summary = Summary(evidenceBytes: nat, sizeCheck: bool, pass: bool)

  // Length of the canonical encoding: `frame` counts everything but the two varying fields.
  function Encoded(frame: nat, s: Summary): nat {
    frame + Digits(s.evidenceBytes) + (if s.sizeCheck then 4 else 5)
  }

  // Evidence files, the encoded summary and its newline.
  function Total(size: nat, frame: nat, s: Summary): nat {
    size + Encoded(frame, s) + 1
  }

  /** What the summary states is so. */
  predicate Consistent(size: nat, frame: nat, cap: nat, passed: bool, others: bool, s: Summary) {
    && s.evidenceBytes == Total(size, frame, s)
    && (s.sizeCheck <==> s.evidenceBytes <= cap)
    && (s.pass <==> passed && others && s.sizeCheck)
  }

  // Later records state at least as much, and a failed size check stays failed.
  predicate Follows(s: Summary, t: Summary) {
    s.evidenceBytes <= t.evidenceBytes && (t.sizeCheck ==> s.sizeCheck)
  }

  lemma TotalMonotone(size: nat, frame: nat, s: Summary, t: Summary)
    requires Follows(s, t)
    ensures Total(size, frame, s) <= Total(size, frame, t)
  {
    DigitsMonotone(s.evidenceBytes, t.evidenceBytes);
  }

  // A ceiling that no rewritten record exceeds.
  function Ceiling(size: nat, frame: nat): nat { 2 * (size + frame + 7) }

  lemma BelowCeiling(size: nat, frame: nat, s: Summary)
    requires s.evidenceBytes <= Ceiling(size, frame)
    ensures Total(size, frame, s) <= Ceiling(size, frame)
  {
    DigitsBelowHalf(s.evidenceBytes);
  }

  /**
    `size` is the total of the evidence files, `cap` the job's limit, `others` the conjunction of
    the checks other than size. The loop ends, the record is consistent, it is the least consistent
    record there is, and on the way the stated size never fell nor did the size check recover.
   */
  method Finish(size: nat, frame: nat, cap: nat, passed: bool, others: bool)
    returns (s: Summary, ghost trace: seq<Summary>)
    ensures Consistent(size, frame, cap, passed, others, s)
    ensures forall t :: Consistent(size, frame, cap, passed, others, t) ==> Follows(s, t)
    ensures trace != [] && trace[|trace| - 1] == s
    ensures trace[0] == Summary(size, size <= cap, passed && others && size <= cap)
    ensures forall i, j :: 0 <= i < j < |trace| ==> Follows(trace[i], trace[j])
  {
    s := Summary(size, size <= cap, passed && others && size <= cap);
    trace := [s];
    while true
      invariant s.evidenceBytes <= Total(size, frame, s) && s.evidenceBytes <= Ceiling(size, frame)
      invariant !s.sizeCheck ==> s.evidenceBytes > cap
      invariant forall t :: Consistent(size, frame, cap, passed, others, t) ==> Follows(s, t)
      invariant trace != [] && trace[|trace| - 1] == s
      invariant trace[0] == Summary(size, size <= cap, passed && others && size <= cap)
      invariant forall i, j :: 0 <= i < j < |trace| ==> Follows(trace[i], trace[j])
      decreases Ceiling(size, frame) - s.evidenceBytes, s.sizeCheck,
                s.pass != (passed && others && s.sizeCheck)
    {
      var total := Total(size, frame, s);
      var withinCap := total <= cap;
      var pass := passed && others && withinCap;
      if s.evidenceBytes == total && s.sizeCheck == withinCap && s.pass == pass {
        break;
      }
      var next := Summary(total, withinCap, pass);
      BelowCeiling(size, frame, s);
      TotalMonotone(size, frame, s, next);
      forall t | Consistent(size, frame, cap, passed, others, t)
        ensures Follows(next, t)
      {
        TotalMonotone(size, frame, s, t);
      }
      forall i | 0 <= i < |trace|
        ensures Follows(trace[i], next)
      {
        assert i < |trace| - 1 ==> Follows(trace[i], trace[|trace| - 1]);
      }
      s := next;
      trace := trace + [s];
    }
  }
}

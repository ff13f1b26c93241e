/**
 * The status snapshot the background worker writes after every event, and
 * its estimated-time-remaining text (`worker.py`, `log_status` and the ETR
 * part of `on_render_post`).
 */
module WorkerStatus {
  import opened Wrappers
  import opened Strings

  const NO_ETR: string := "--:--"

  /** The `error` key: `None`, the literal `True`, or an exception's text. */
  datatype StatusError = NoError | ErrorFlag | ErrorText(text: string)

  /**
   * One status file. The wall-clock `timestamp` key is not modelled.
   * `totalFrames` can be negative: a job whose end precedes its start
   * contributes a negative count.
   */
  datatype Status = Status(
    jobIndex: int,          // 1-based
    totalJobs: nat,
    message: string,
    etr: string,
    finished: bool,
    error: StatusError,
    finishedFrames: nat,
    totalFrames: int,
    lastFrame: string
  )

  /**
   * `hh:mm:ss` when at least an hour remains, `mm:ss` otherwise, each part
   * zero-padded to two digits (hours may take more).
   */
  function ClockText(secs: nat): string {
    var mins := secs / 60;
    var s := secs % 60;
    var hrs := mins / 60;
    var m := mins % 60;
    if hrs > 0 then Pad2(hrs) + ":" + Pad2(m) + ":" + Pad2(s)
    else Pad2(m) + ":" + Pad2(s)
  }

  /** Reads a clock text back into seconds. */
  function ParseClock(t: string): Option<nat> {
    var parts := SplitOn(t, ':');
    if |parts| == 2 && AllDigits(parts[0]) && AllDigits(parts[1]) then
      Some(ParseNat(parts[0]) * 60 + ParseNat(parts[1]))
    else if |parts| == 3 && AllDigits(parts[0]) && AllDigits(parts[1]) && AllDigits(parts[2]) then
      Some(ParseNat(parts[0]) * 3600 + ParseNat(parts[1]) * 60 + ParseNat(parts[2]))
    else None
  }

  lemma SplitTwo(a: string, b: string)
    requires AllDigits(a) && AllDigits(b)
    ensures SplitOn(a + ":" + b, ':') == [a, b]
  {
    NonDigitAbsent(a, ':');
    NonDigitAbsent(b, ':');
    assert a + ":" + b == a + [':'] + b;
    SplitOnFirst(a, ':', b);
  }

  lemma SplitThree(a: string, b: string, c: string)
    requires AllDigits(a) && AllDigits(b) && AllDigits(c)
    ensures SplitOn(a + ":" + b + ":" + c, ':') == [a, b, c]
  {
    NonDigitAbsent(a, ':');
    assert a + ":" + b + ":" + c == a + [':'] + (b + ":" + c);
    SplitOnFirst(a, ':', b + ":" + c);
    SplitTwo(b, c);
  }

  /** Splitting seconds into hours, minutes and seconds loses nothing. */
  lemma ClockArith(secs: nat)
    ensures (secs / 60 / 60) * 3600 + (secs / 60 % 60) * 60 + secs % 60 == secs
    ensures secs / 60 / 60 == 0 ==> (secs / 60 % 60) * 60 + secs % 60 == secs
  {
    var mins := secs / 60;
    var hrs := mins / 60;
    assert secs == mins * 60 + secs % 60;
    assert mins == hrs * 60 + mins % 60;
    assert mins * 60 == hrs * 3600 + (mins % 60) * 60;
  }

  lemma ParseLongClock(h: nat, m: nat, s: nat)
    ensures ParseClock(Pad2(h) + ":" + Pad2(m) + ":" + Pad2(s)) == Some(h * 3600 + m * 60 + s)
  {
    SplitThree(Pad2(h), Pad2(m), Pad2(s));
  }

  lemma ParseShortClock(m: nat, s: nat)
    ensures ParseClock(Pad2(m) + ":" + Pad2(s)) == Some(m * 60 + s)
  {
    SplitTwo(Pad2(m), Pad2(s));
  }

  /** The clock text always reads back as the number of seconds it was made from. */
  lemma ParseClockText(secs: nat)
    ensures ParseClock(ClockText(secs)) == Some(secs)
  {
    var mins := secs / 60;
    var s := secs % 60;
    var hrs := mins / 60;
    var m := mins % 60;
    ClockArith(secs);
    assert hrs * 3600 + m * 60 + s == secs;
    if hrs > 0 {
      assert ClockText(secs) == Pad2(hrs) + ":" + Pad2(m) + ":" + Pad2(s);
      ParseLongClock(hrs, m, s);
    } else {
      assert m * 60 + s == secs;
      assert ClockText(secs) == Pad2(m) + ":" + Pad2(s);
      ParseShortClock(m, s);
    }
  }

  /** A clock text is never the "no estimate" marker. */
  lemma ClockTextNotNoEtr(secs: nat)
    ensures ClockText(secs) != NO_ETR
  {
    ParseClockText(secs);
    var parts := SplitOn(NO_ETR, ':');
    assert NO_ETR == "--" + [':'] + "--";
    SplitOnFirst("--", ':', "--");
    assert !AllDigits(parts[0]) by { assert parts[0][0] == '-'; }
  }

  /**
   * The estimate written after a frame: time per finished frame times the
   * frames left, truncated to whole seconds. `elapsed` is the whole seconds
   * since the batch started.
   */
  function Etr(finished: nat, total: int, elapsed: nat): string {
    if finished > 0 && total > 0 && elapsed * (total - finished) > 0 then
      ClockText(elapsed * (total - finished) / finished)
    else NO_ETR
  }

  lemma PositiveProduct(e: nat, d: int)
    ensures e * d > 0 <==> e > 0 && d > 0
  {
    if e > 0 && d <= 0 {
      assert e * d <= 0;
    }
  }

  /**
   * There is an estimate exactly when some frames are finished, the total is
   * positive and time remains; it then reads back as the truncated seconds.
   */
  lemma EtrMeaning(finished: nat, total: int, elapsed: nat)
    ensures Etr(finished, total, elapsed) != NO_ETR
        <==> finished > 0 && total > 0 && elapsed > 0 && total > finished
    ensures Etr(finished, total, elapsed) != NO_ETR ==>
      ParseClock(Etr(finished, total, elapsed)) == Some(elapsed * (total - finished) / finished)
  {
    PositiveProduct(elapsed, total - finished);
    if finished > 0 && total > 0 && elapsed * (total - finished) > 0 {
      var secs: nat := elapsed * (total - finished) / finished;
      assert Etr(finished, total, elapsed) == ClockText(secs);
      ClockTextNotNoEtr(secs);
      ParseClockText(secs);
    }
  }
}

/** 24-hour clock arithmetic on millisecond times of day, and the
    "hh:mm[:ss]" reader and "HH:MM:SS" writer used by sequence files. */
module Clock {
  import opened CText
  import opened Wrappers

  /** Milliseconds in a day. */
  const H24: int := 86400000

  predicate InDay(t: int) {
    0 <= t < H24
  }

  /** Length of the period from t0 to t1; a period that starts and ends at
      the same time of day lasts 24 hours. */
  function TPer24(t0: int, t1: int): (r: int)
    ensures InDay(t0) && InDay(t1) ==> 0 < r <= H24
    ensures InDay(t0) && InDay(t1) ==> (r == H24 <==> t0 == t1)
    ensures InDay(t0) && InDay(t1) ==> (t0 + r) % H24 == t1
  {
    var td := t1 - t0;
    if td > 0 then td else td + H24
  }

  /** Length of the period from t0 to t1; a period that starts and ends at
      the same time of day is empty. */
  function TPer0(t0: int, t1: int): (r: int)
    ensures InDay(t0) && InDay(t1) ==> 0 <= r < H24
    ensures InDay(t0) && InDay(t1) ==> (r == 0 <==> t0 == t1)
    ensures InDay(t0) && InDay(t1) ==> (t0 + r) % H24 == t1
  {
    var td := t1 - t0;
    if td >= 0 then td else td + H24
  }

  /** Midpoint of the period from t0 to t1, going round midnight when t1 < t0. */
  function TMid(t0: int, t1: int): (r: int)
    ensures InDay(t0) && InDay(t1) ==> InDay(r)
  {
    CRem(if t1 < t0 then CDiv(H24 + t0 + t1, 2) else CDiv(t0 + t1, 2), H24)
  }

  /** The two period lengths differ only for an empty period. */
  lemma TPer24AgreesWithTPer0(t0: int, t1: int)
    requires InDay(t0) && InDay(t1)
    ensures TPer24(t0, t1) == if t0 == t1 then H24 else TPer0(t0, t1)
  {
  }

  /** TMid lies half-way (rounded down) along the period from t0 to t1. */
  lemma TMidHalvesPeriod(t0: int, t1: int)
    requires InDay(t0) && InDay(t1)
    ensures TPer0(t0, TMid(t0, t1)) == TPer0(t0, t1) / 2
  {
    var d := TPer0(t0, t1);
    if t1 < t0 {
      assert H24 + t0 + t1 == 2 * t0 + d;
      assert CDiv(H24 + t0 + t1, 2) == t0 + d / 2;
    } else {
      assert t0 + t1 == 2 * t0 + d;
      assert CDiv(t0 + t1, 2) == t0 + d / 2;
    }
  }

  /** A successful readTime(): characters consumed and the time in ms. */
  datatype TimeRead = TimeRead(consumed: nat, tim: int)

  /** sscanf(p, "%2d:%2d:%2d%n", ...) when all three conversions succeed. */
  function ScanHms(s: string): (r: Option<(int, int, int, nat)>)
    ensures r.Some? ==> 0 < r.value.3 <= |s|
  {
    match Scan2d(s, 0)
    case NoInt => None
    case Int(h, i1) =>
      if i1 < |s| && s[i1] == ':' then
        match Scan2d(s, i1 + 1)
        case NoInt => None
        case Int(m, i2) =>
          if i2 < |s| && s[i2] == ':' then
            match Scan2d(s, i2 + 1)
            case NoInt => None
            case Int(sec, i3) => Some((h, m, sec, i3))
          else None
      else None
  }

  /** sscanf(p, "%2d:%2d%n", ...) when both conversions succeed. */
  function ScanHm(s: string): (r: Option<(int, int, nat)>)
    ensures r.Some? ==> 0 < r.value.2 <= |s|
  {
    match Scan2d(s, 0)
    case NoInt => None
    case Int(h, i1) =>
      if i1 < |s| && s[i1] == ':' then
        match Scan2d(s, i1 + 1)
        case NoInt => None
        case Int(m, i2) => Some((h, m, i2))
      else None
  }

  /** readTime(): "hh:mm:ss", or failing that "hh:mm" with seconds 0; each
      field range-checked. None is the C return value 0. */
  function ReadTime(s: string): (r: Option<TimeRead>)
    ensures r.Some? ==> 0 < r.value.consumed <= |s|
    ensures r.Some? ==> InDay(r.value.tim) && r.value.tim % 1000 == 0
    ensures ScanHms(s).Some? ==>
      var (h, m, sec, n) := ScanHms(s).value;
      (r.Some? <==> 0 <= h < 24 && 0 <= m < 60 && 0 <= sec < 60)
      && (r.Some? ==> r.value == TimeRead(n, ((h * 60 + m) * 60 + sec) * 1000))
    ensures ScanHms(s).None? && ScanHm(s).Some? ==>
      var (h, m, n) := ScanHm(s).value;
      (r.Some? <==> 0 <= h < 24 && 0 <= m < 60)
      && (r.Some? ==> r.value == TimeRead(n, (h * 60 + m) * 60 * 1000))
    ensures ScanHms(s).None? && ScanHm(s).None? ==> r.None?
  {
    var fields :=
      match ScanHms(s)
      case Some(f) => Some(f)
      case None =>
        match ScanHm(s)
        case Some((h, m, n)) => Some((h, m, 0, n))
        case None => None;
    if fields.None? then None
    else
      var (h, m, sec, n) := fields.value;
      if h < 0 || h >= 24 || m < 0 || m >= 60 || sec < 0 || sec >= 60 then None
      else Some(TimeRead(n, ((h * 60 + m) * 60 + sec) * 1000))
  }

  /** "24:00" has no seconds field and is refused for its hour. */
  lemma ReadTimeRefusesHour24()
    ensures ReadTime("24:00").None?
  {
    assert Scan2d("24:00", 0) == Int(24, 2);
    assert ScanHms("24:00").None?;
    assert ScanHm("24:00") == Some((24, 0, 5));
  }

  /** "12:60" is refused for its minute. */
  lemma ReadTimeRefusesMinute60()
    ensures ReadTime("12:60").None?
  {
    assert Scan2d("12:60", 3) == Int(60, 5);
    assert ScanHms("12:60").None?;
    assert ScanHm("12:60") == Some((12, 60, 5));
  }

  /** A sign is one of a field's two characters: "-1:30:00" has hour -1
      and is refused. */
  lemma ReadTimeRefusesNegativeHour()
    ensures ReadTime("-1:30:00").None?
  {
    assert Scan2d("-1:30:00", 0) == Int(-1, 2);
    assert ScanHms("-1:30:00").Some? && ScanHms("-1:30:00").value.0 == -1;
  }

  /** One-digit fields are read: "7:5:3" is 07:05:03. */
  lemma ReadTimeOneDigitFields()
    ensures ReadTime("7:5:3") == Some(TimeRead(5, 25503000))
  {
    assert Scan2d("7:5:3", 0) == Int(7, 1);
    assert Scan2d("7:5:3", 2) == Int(5, 3);
    assert Scan2d("7:5:3", 4) == Int(3, 5);
    assert ScanHms("7:5:3") == Some((7, 5, 3, 5));
  }

  /** printf("%02d"): at least two characters, zero-padded; a negative value
      already has two characters with its sign. */
  function Pad2(n: int): (t: string)
    ensures |t| >= 2
  {
    if n < 0 then "-" + NatToString(-n)
    else if n < 10 then "0" + [DigitChar(n)]
    else NatToString(n)
  }

  /** sprintTime(): "HH:MM:SS" of a time in ms, with C's `/` and `%`. */
  function SprintTime(tim: int): (t: string)
    ensures |t| >= 8
  {
    Pad2(CDiv(CRem(tim, H24), 3600000)) + ":" +
    Pad2(CDiv(CRem(tim, 3600000), 60000)) + ":" +
    Pad2(CDiv(CRem(tim, 60000), 1000))
  }

  lemma Pad2Small(n: int)
    requires 0 <= n < 100
    ensures Pad2(n) == [DigitChar(n / 10), DigitChar(n % 10)]
  {
    if n >= 10 {
      assert NatToString(n / 10) == [DigitChar(n / 10)];
    }
  }

  /** Two digits at index i are read back by "%2d". */
  lemma Scan2dOfPad2(s: string, i: nat, n: int)
    requires 0 <= n < 100 && i + 2 <= |s|
    requires s[i..i + 2] == Pad2(n)
    ensures Scan2d(s, i) == Int(n, i + 2)
  {
    Pad2Small(n);
    assert s[i] == s[i..i + 2][0] && s[i + 1] == s[i..i + 2][1];
  }

  /** The hour, minute and second fields of a time of day. */
  lemma DayFields(t: int)
    requires InDay(t)
    ensures 0 <= t / 3600000 < 24
    ensures 0 <= t % 3600000 / 60000 < 60
    ensures 0 <= t % 60000 / 1000 < 60
    ensures ((t / 3600000 * 60 + t % 3600000 / 60000) * 60 + t % 60000 / 1000) * 1000 == t / 1000 * 1000
  {
    var h := t / 3600000;
    var r := t % 3600000;
    var m := r / 60000;
    var r2 := r % 60000;
    assert t == h * 3600000 + r;
    assert r == m * 60000 + r2;
    assert t % 60000 == r2 by {
      assert t == (h * 60 + m) * 60000 + r2;
    }
    var sec := r2 / 1000;
    assert t / 1000 == (h * 60 + m) * 60 + sec by {
      assert t == ((h * 60 + m) * 60 + sec) * 1000 + r2 % 1000;
    }
  }

  /** "HH:MM:SS" is scanned back field by field. */
  lemma ScanHmsOfFields(h: int, m: int, sec: int)
    requires 0 <= h < 100 && 0 <= m < 100 && 0 <= sec < 100
    ensures ScanHms(Pad2(h) + ":" + Pad2(m) + ":" + Pad2(sec)) == Some((h, m, sec, 8))
  {
    var s := Pad2(h) + ":" + Pad2(m) + ":" + Pad2(sec);
    Pad2Small(h);
    Pad2Small(m);
    Pad2Small(sec);
    assert |s| == 8;
    Scan2dOfPad2(s, 0, h);
    Scan2dOfPad2(s, 3, m);
    Scan2dOfPad2(s, 6, sec);
    assert s[2] == ':' && s[5] == ':';
  }

  /** readTime() of a well-formed "HH:MM:SS". */
  lemma ReadTimeOfFields(h: int, m: int, sec: int)
    requires 0 <= h < 24 && 0 <= m < 60 && 0 <= sec < 60
    ensures ReadTime(Pad2(h) + ":" + Pad2(m) + ":" + Pad2(sec)) == Some(TimeRead(8, ((h * 60 + m) * 60 + sec) * 1000))
  {
    ScanHmsOfFields(h, m, sec);
  }

  /** Two-digit fields are refused as soon as one is out of range:
      "24:00:00", "12:60:00" and "12:00:60" all fail. */
  lemma ReadTimeOutOfRange(h: int, m: int, sec: int)
    requires 0 <= h < 100 && 0 <= m < 100 && 0 <= sec < 100
    requires h >= 24 || m >= 60 || sec >= 60
    ensures ReadTime(Pad2(h) + ":" + Pad2(m) + ":" + Pad2(sec)).None?
  {
    ScanHmsOfFields(h, m, sec);
  }

  /** The sequence-file time written by sprintTime is read back by readTime
      as the same time of day truncated to whole seconds. */
  lemma ReadTimeOfSprintTime(t: int)
    requires InDay(t)
    ensures ReadTime(SprintTime(t)) == Some(TimeRead(8, t / 1000 * 1000))
  {
    var h, m, sec := t / 3600000, t % 3600000 / 60000, t % 60000 / 1000;
    assert 0 <= h < 24 && 0 <= m < 60 && 0 <= sec < 60 && ((h * 60 + m) * 60 + sec) * 1000 == t / 1000 * 1000 by {
      DayFields(t);
    }
    assert SprintTime(t) == Pad2(h) + ":" + Pad2(m) + ":" + Pad2(sec) by {
      SprintFields(t);
    }
    ReadTimeOfFields(h, m, sec);
  }

  /** For a time of day, C's `/` and `%` in sprintTime are Euclidean. */
  lemma SprintFields(t: int)
    requires InDay(t)
    ensures SprintTime(t) == Pad2(t / 3600000) + ":" + Pad2(t % 3600000 / 60000) + ":" + Pad2(t % 60000 / 1000)
  {
    assert CRem(t, H24) == t;
    assert CDiv(CRem(t, H24), 3600000) == t / 3600000;
    assert CDiv(CRem(t, 3600000), 60000) == t % 3600000 / 60000;
    assert CDiv(CRem(t, 60000), 1000) == t % 60000 / 1000;
  }

  /** "hh:mm" with nothing after it is read with seconds 0. */
  lemma ReadTimeShortForm(h: int, m: int)
    requires 0 <= h < 24 && 0 <= m < 60
    ensures ReadTime(Pad2(h) + ":" + Pad2(m)) == Some(TimeRead(5, (h * 60 + m) * 60000))
  {
    var s := Pad2(h) + ":" + Pad2(m);
    Pad2Small(h);
    Pad2Small(m);
    Scan2dOfPad2(s, 0, h);
    Scan2dOfPad2(s, 3, m);
    assert ScanHms(s).None?;
    assert ScanHm(s) == Some((h, m, 5));
  }
}

/**
 * The weekly cleaning schedule: the device's parallel `cycle`/`h`/`m`
 * arrays, the seven `{active, time}` entries `WeekSchedule` keeps, and the
 * `WeekDays` view that writes one field on several days at once.
 * Day indices run from 0 (Sunday) to 6 (Saturday).
 */
module Schedule {
  import opened Failures
  import opened Decimal

  const DayCount := 7

  /** One day of the schedule; `time` is the text "H:MM". */
  datatype Entry = Entry(active: bool, time: string)

  /** The schedule as the device sends it and as `encode()` returns it. */
  datatype ScheduleWire = ScheduleWire(cycle: seq<string>, h: seq<int>, m: seq<int>)

  /** The response carries (at least) one value per weekday in each array. */
  predicate CoversWeek(w: ScheduleWire) {
    |w.cycle| >= DayCount && |w.h| >= DayCount && |w.m| >= DayCount
  }

  /** `$h . ":" . str_pad((string)$m, 2, "0", STR_PAD_LEFT)`. */
  function FormatTime(h: int, m: int): string {
    IntToString(h) + ":" + PadLeft2(IntToString(m))
  }

  /** The length of the part before the first ':'. */
  function UpToColon(t: string): (n: nat)
    ensures n <= |t| && ':' !in t[..n]
    ensures n < |t| ==> t[n] == ':'
  {
    if t == [] || t[0] == ':' then 0
    else
      var n := 1 + UpToColon(t[1..]);
      assert t[..n] == [t[0]] + t[1..][..n - 1];
      n
  }

  /** What `strtok($time, ":")` returns: leading ':' skipped, then up to the next ':'; "" where it returns false. */
  function HourToken(t: string): string {
    if t != [] && t[0] == ':' then HourToken(t[1..]) else t[..UpToColon(t)]
  }

  /** What the following `strtok("")` returns: the rest after that delimiter; "" where it returns false. */
  function MinuteToken(t: string): string {
    if t != [] && t[0] == ':' then MinuteToken(t[1..])
    else
      var n := UpToColon(t);
      if n < |t| then t[n + 1..] else ""
  }

  /** `(int)strtok($time, ":")`. */
  function HourField(t: string): int {
    IntCast(HourToken(t))
  }

  /** `(int)strtok("")`. */
  function MinuteField(t: string): int {
    IntCast(MinuteToken(t))
  }

  /** A canonical "H:MM": a numeral without leading zeros, ':', exactly two digits. */
  predicate WellFormedTime(t: string) {
    |t| >= 4 && t[|t| - 3] == ':' && IsDigit(t[|t| - 2]) && IsDigit(t[|t| - 1]) && CanonicalNat(t[..|t| - 3])
  }

  lemma {:induction false} UpToColonOfJoin(a: string, b: string)
    requires ':' !in a
    ensures UpToColon(a + ":" + b) == |a|
  {
    if a != [] {
      assert (a + ":" + b)[1..] == a[1..] + ":" + b;
      UpToColonOfJoin(a[1..], b);
    }
  }

  /** `strtok` splits "A:B" into A and B when A is non-empty and has no ':'. */
  lemma TokensOfJoin(a: string, b: string)
    requires a != [] && ':' !in a
    ensures HourToken(a + ":" + b) == a && MinuteToken(a + ":" + b) == b
  {
    var t := a + ":" + b;
    assert t[0] == a[0] && a[0] != ':';
    UpToColonOfJoin(a, b);
    assert t[..|a|] == a;
    assert t[|a| + 1..] == b;
  }

  /** Splitting a formatted time gives back the hour and the minute, for every integer pair. */
  lemma ParseFormatTime(h: int, m: int)
    ensures HourField(FormatTime(h, m)) == h
    ensures MinuteField(FormatTime(h, m)) == m
  {
    IntToStringShape(h);
    TokensOfJoin(IntToString(h), PadLeft2(IntToString(m)));
    IntCastOfIntToString(h);
    IntCastOfPadded(m);
  }

  /** A canonical "H:MM" is the formatting of its own fields. */
  lemma FormatParseTime(t: string)
    requires WellFormedTime(t)
    ensures FormatTime(HourField(t), MinuteField(t)) == t
  {
    var a, b := t[..|t| - 3], t[|t| - 2..];
    assert t == a + ":" + b;
    assert ':' !in a by {
      forall i | 0 <= i < |a| ensures a[i] != ':' {
        assert IsDigit(a[i]);
      }
    }
    TokensOfJoin(a, b);
    IntCastOfDigits(a);
    NatToStringOfDigits(a);
    TwoDigitsRoundTrip(b);
  }

  /** Natural hours and minutes below 100 format to a canonical "H:MM". */
  lemma FormatIsWellFormed(h: int, m: int)
    requires h >= 0 && 0 <= m < 100
    ensures WellFormedTime(FormatTime(h, m))
  {
    var a, b := IntToString(h), PadLeft2(IntToString(m));
    var t := FormatTime(h, m);
    IntToStringShape(h);
    if m >= 10 {
      assert NatToString(m) == NatToString(m / 10) + [DigitChar(m % 10)];
    }
    assert |b| == 2 && AllDigits(b);
    assert t == a + ":" + b;
    assert t[..|t| - 3] == a;
  }

  /** `(string)$a[$d]`: a missing index reads as null, which converts to "". */
  function Piece(a: seq<int>, d: nat): string {
    if d < |a| then IntToString(a[d]) else ""
  }

  /**
   * The seven entries `WeekSchedule::decode` builds; a day missing from
   * `cycle` is inactive, and a missing hour or minute leaves its part of
   * the text empty (padded to "00" for the minute).
   */
  function DecodeEntries(w: ScheduleWire): (s: seq<Entry>)
    ensures |s| == DayCount
    ensures forall d :: 0 <= d < DayCount ==> (s[d].active <==> d < |w.cycle| && w.cycle[d] == "start")
    ensures CoversWeek(w) ==> forall d :: 0 <= d < DayCount ==> s[d].time == FormatTime(w.h[d], w.m[d])
  {
    seq(DayCount, d requires 0 <= d < DayCount =>
      Entry(d < |w.cycle| && w.cycle[d] == "start", Piece(w.h, d) + ":" + PadLeft2(Piece(w.m, d))))
  }

  /** A day absent from all three arrays decodes to an inactive entry with the text ":00". */
  lemma MissingDay(w: ScheduleWire, d: nat)
    requires d < DayCount && |w.cycle| <= d && |w.h| <= d && |w.m| <= d
    ensures DecodeEntries(w)[d] == Entry(false, ":00")
  {
  }

  /** The parallel arrays `WeekSchedule::encode` builds. */
  function EncodeEntries(s: seq<Entry>): (w: ScheduleWire)
    requires |s| == DayCount
    ensures CoversWeek(w) && |w.cycle| == |w.h| == |w.m| == DayCount
  {
    ScheduleWire(
      seq(DayCount, d requires 0 <= d < DayCount => if s[d].active then "start" else "none"),
      seq(DayCount, d requires 0 <= d < DayCount => HourField(s[d].time)),
      seq(DayCount, d requires 0 <= d < DayCount => MinuteField(s[d].time)))
  }

  /** `cycle` as the device reads it back: "start" stays, everything else becomes "none". */
  function NormalizedCycle(cycle: seq<string>): (c: seq<string>)
    requires |cycle| >= DayCount
    ensures |c| == DayCount
    ensures forall d :: 0 <= d < DayCount ==> c[d] in {"start", "none"} && (c[d] == "start" <==> cycle[d] == "start")
  {
    seq(DayCount, d requires 0 <= d < DayCount => if cycle[d] == "start" then "start" else "none")
  }

  /** Encoding a decoded response returns its hours and minutes, with `cycle` normalised. */
  lemma EncodeDecodeWire(w: ScheduleWire)
    requires CoversWeek(w)
    ensures EncodeEntries(DecodeEntries(w)) == ScheduleWire(NormalizedCycle(w.cycle), w.h[..DayCount], w.m[..DayCount])
  {
    var e := EncodeEntries(DecodeEntries(w));
    forall d | 0 <= d < DayCount
      ensures e.h[d] == w.h[d] && e.m[d] == w.m[d]
    {
      ParseFormatTime(w.h[d], w.m[d]);
    }
  }

  /** Decoding an encoded schedule returns it, when every time is a canonical "H:MM". */
  lemma DecodeEncodeEntries(s: seq<Entry>)
    requires |s| == DayCount
    requires forall d :: 0 <= d < DayCount ==> WellFormedTime(s[d].time)
    ensures DecodeEntries(EncodeEntries(s)) == s
  {
    var r := DecodeEntries(EncodeEntries(s));
    forall d | 0 <= d < DayCount
      ensures r[d] == s[d]
    {
      FormatParseTime(s[d].time);
    }
  }

  /** A day argument: PHP passes either an integer or a string. */
  datatype DayName = Index(n: int) | Name(s: string)

  const DayNames: seq<string> := ["sun", "mon", "tue", "wed", "thu", "fri", "sat"]

  /** The `NAMES` table: a lower-case abbreviation to its day index. */
  function NameIndex(s: string): (r: Option<int>)
    ensures r.Some? ==> 0 <= r.value < DayCount && DayNames[r.value] == s
    ensures forall k :: 0 <= k < DayCount && DayNames[k] == s ==> r == Some(k)
  {
    IndexFrom(s, 0)
  }

  /** The first index at or after `k` whose abbreviation is `s`. */
  function IndexFrom(s: string, k: nat): (r: Option<int>)
    requires k <= DayCount
    ensures r.Some? ==> k <= r.value < DayCount && DayNames[r.value] == s
    ensures forall j :: k <= j < DayCount && DayNames[j] == s ==> r == Some(j)
    decreases DayCount - k
  {
    if k == DayCount then None
    else if DayNames[k] == s then Some(k)
    else IndexFrom(s, k + 1)
  }

  /**
   * `WeekDays::parseName`: a number from 0 to 6 is taken as it is, any other
   * value is looked up (lower-cased) among the abbreviations. An integer
   * outside 0..6 reaches `strtolower`, which strict typing rejects.
   */
  function ParseName(day: DayName): (r: Result<int>)
    ensures r.Ok? ==> 0 <= r.value < DayCount
    ensures day.Index? ==> r == if 0 <= day.n < DayCount then Ok(day.n) else Err(TypeError)
    ensures day.Name? && IsIntegerString(day.s) && 0 <= IntCast(day.s) < DayCount ==> r == Ok(IntCast(day.s))
    ensures day.Name? && r.Ok? && !(IsIntegerString(day.s) && 0 <= IntCast(day.s) < DayCount) ==> DayNames[r.value] == ToLower(day.s)
    ensures forall k :: 0 <= k < DayCount && day.Name? && DayNames[k] == ToLower(day.s) ==> r == Ok(k)
    ensures day.Name? && r.Err? ==> r.error == InvalidParameter(day.s)
  {
    match day
    case Index(n) =>
      if 0 <= n < DayCount then Ok(n) else Err(TypeError)
    case Name(s) =>
      if IsIntegerString(s) && 0 <= IntCast(s) < DayCount then Ok(IntCast(s))
      else
        match NameIndex(ToLower(s))
        case Some(k) => Ok(k)
        case None => Err(InvalidParameter(s))
  }

  /** Parsing every name in order, failing on the first bad one as the `WeekDays` constructor does. */
  function ParseAll(names: seq<DayName>): (r: Result<seq<int>>)
    ensures r.Ok? <==> forall i :: 0 <= i < |names| ==> ParseName(names[i]).Ok?
    ensures r.Ok? ==> |r.value| == |names| && forall i :: 0 <= i < |names| ==> ParseName(names[i]) == Ok(r.value[i])
    ensures r.Err? ==> exists i :: 0 <= i < |names| && ParseName(names[i]) == Err(r.error) &&
                                   forall j :: 0 <= j < i ==> ParseName(names[j]).Ok?
  {
    if names == [] then Ok([])
    else
      match ParseName(names[0])
      case Err(e) => Err(e)
      case Ok(d) =>
        match ParseAll(names[1..])
        case Err(e) =>
          var r := Err(e);
          ghost var i :| 0 <= i < |names[1..]| && ParseName(names[1..][i]) == Err(e) &&
                         forall j :: 0 <= j < i ==> ParseName(names[1..][j]).Ok?;
          assert ParseName(names[i + 1]) == Err(e);
          r
        case Ok(ds) =>
          Ok([d] + ds)
  }

  lemma DayNameExamples()
    ensures ParseName(Name("Mon")) == Ok(1) && ParseName(Name("mon")) == Ok(1) && ParseName(Index(1)) == Ok(1)
    ensures ParseName(Name("xyz")) == Err(InvalidParameter("xyz"))
    ensures ParseName(Index(9)).Err?
  {
    assert ToLower("Mon") == "mon";
    assert DayNames[1] == "mon";
    assert !IsIntegerString("xyz") by { assert !IsDigit('x'); }
  }

  class WeekSchedule {
    const sched: array<Entry>

    ghost predicate Valid()
      reads this
    {
      sched.Length == DayCount
    }

    /** `WeekSchedule::decode`: fills the seven entries day by day. */
    constructor Decode(w: ScheduleWire)
      ensures Valid() && fresh(sched)
      ensures sched[..] == DecodeEntries(w)
    {
      var a := new Entry[DayCount];
      for d := 0 to DayCount
        invariant forall i :: 0 <= i < d ==> a[i] == DecodeEntries(w)[i]
      {
        a[d] := Entry(d < |w.cycle| && w.cycle[d] == "start", Piece(w.h, d) + ":" + PadLeft2(Piece(w.m, d)));
      }
      sched := a;
    }

    /** `encode()`: fills the three parallel arrays day by day. */
    method Encode() returns (w: ScheduleWire)
      requires Valid()
      ensures w == EncodeEntries(sched[..])
    {
      var cycle, h, m := [], [], [];
      for d := 0 to DayCount
        invariant |cycle| == d && |h| == d && |m| == d
        invariant forall i :: 0 <= i < d ==> cycle[i] == (if sched[i].active then "start" else "none")
        invariant forall i :: 0 <= i < d ==> h[i] == HourField(sched[i].time) && m[i] == MinuteField(sched[i].time)
      {
        cycle := cycle + [if sched[d].active then "start" else "none"];
        h := h + [HourField(sched[d].time)];
        m := m + [MinuteField(sched[d].time)];
      }
      w := ScheduleWire(cycle, h, m);
    }

    /** `day($name)`: a view of one day. */
    method Day(name: DayName) returns (r: Result<WeekDays>)
      requires Valid()
      ensures r.Err? <==> ParseName(name).Err?
      ensures r.Err? ==> r.error == ParseName(name).error
      ensures r.Ok? ==> fresh(r.value) && r.value.week == this && r.value.days == [ParseName(name).value] && r.value.Valid()
    {
      r := WeekDays.Bind(this, [name]);
    }

    /** `days($names)`: a view of several days. */
    method Days(names: seq<DayName>) returns (r: Result<WeekDays>)
      requires Valid()
      ensures r.Err? <==> ParseAll(names).Err?
      ensures r.Err? ==> r.error == ParseAll(names).error
      ensures r.Ok? ==> fresh(r.value) && r.value.week == this && r.value.days == ParseAll(names).value && r.value.Valid()
    {
      r := WeekDays.Bind(this, names);
    }

    /** `allDays()`: a view of the whole week, Sunday to Saturday. */
    method AllDays() returns (v: WeekDays)
      requires Valid()
      ensures fresh(v) && v.week == this && v.days == [0, 1, 2, 3, 4, 5, 6] && v.Valid()
    {
      var names := [Index(0), Index(1), Index(2), Index(3), Index(4), Index(5), Index(6)];
      var r := WeekDays.Bind(this, names);
      assert forall i :: 0 <= i < |names| ==> ParseName(names[i]) == Ok(i);
      v := r.value;
    }
  }

  class WeekDays {
    var days: seq<int>
    const week: WeekSchedule

    /** The view's days are weekday indices of a seven-day schedule. */
    ghost predicate Valid()
      reads this, week
    {
      week.Valid() && forall i :: 0 <= i < |days| ==> 0 <= days[i] < DayCount
    }

    constructor Empty(week: WeekSchedule)
      ensures this.week == week && days == []
    {
      this.week := week;
      days := [];
    }

    /**
     * The `WeekDays` constructor: binds the schedule, then appends each
     * parsed name; a name that does not parse abandons the view.
     */
    static method Bind(week: WeekSchedule, names: seq<DayName>) returns (r: Result<WeekDays>)
      ensures r.Err? <==> ParseAll(names).Err?
      ensures r.Err? ==> r.error == ParseAll(names).error
      ensures r.Ok? ==> fresh(r.value) && r.value.week == week && r.value.days == ParseAll(names).value
      ensures r.Ok? && week.Valid() ==> r.value.Valid()
    {
      var v := new WeekDays.Empty(week);
      for i := 0 to |names|
        invariant |v.days| == i
        invariant forall j :: 0 <= j < i ==> ParseName(names[j]) == Ok(v.days[j])
      {
        var d := ParseName(names[i]);
        if d.Err? {
          return Err(d.error);
        }
        v.days := v.days + [d.value];
      }
      return Ok(v);
    }

    /** `setActive($active)`: every bound day gets `active`; nothing else changes. */
    method SetActive(active: bool := true) returns (r: WeekDays)
      requires Valid()
      modifies week.sched
      ensures r == this && Valid()
      ensures forall d :: 0 <= d < DayCount ==>
        week.sched[d] == if d in days then old(week.sched[d]).(active := active) else old(week.sched[d])
    {
      for i := 0 to |days|
        invariant forall d :: 0 <= d < DayCount ==>
          week.sched[d] == if d in days[..i] then old(week.sched[d]).(active := active) else old(week.sched[d])
      {
        var day := days[i];
        week.sched[day] := week.sched[day].(active := active);
        assert days[..i + 1] == days[..i] + [day];
      }
      assert days[..|days|] == days;
      return this;
    }

    /** `setTime($hours, $minutes)`: every bound day gets the formatted time; nothing else changes. */
    method SetTime(hours: int, minutes: int := 0) returns (r: WeekDays)
      requires Valid()
      modifies week.sched
      ensures r == this && Valid()
      ensures forall d :: 0 <= d < DayCount ==>
        week.sched[d] == if d in days then old(week.sched[d]).(time := FormatTime(hours, minutes)) else old(week.sched[d])
      ensures forall d :: 0 <= d < DayCount && d in days ==>
        HourField(week.sched[d].time) == hours && MinuteField(week.sched[d].time) == minutes
    {
      var time := FormatTime(hours, minutes);
      ParseFormatTime(hours, minutes);
      for i := 0 to |days|
        invariant forall d :: 0 <= d < DayCount ==>
          week.sched[d] == if d in days[..i] then old(week.sched[d]).(time := time) else old(week.sched[d])
      {
        var day := days[i];
        week.sched[day] := week.sched[day].(time := time);
        assert days[..i + 1] == days[..i] + [day];
      }
      assert days[..|days|] == days;
      return this;
    }
  }

  /** The encoded schedule as the JSON arguments of the `set week` request. */
  function WireToJson(w: ScheduleWire): (j: Json)
    ensures j.JObject? && j.fields.Keys == {"cycle", "h", "m"}
    ensures j.fields["cycle"].JArray? && |j.fields["cycle"].items| == |w.cycle|
    ensures forall i :: 0 <= i < |w.cycle| ==> j.fields["cycle"].items[i] == JString(w.cycle[i])
    ensures j.fields["h"].JArray? && |j.fields["h"].items| == |w.h|
    ensures forall i :: 0 <= i < |w.h| ==> j.fields["h"].items[i] == JInt(w.h[i])
    ensures j.fields["m"].JArray? && |j.fields["m"].items| == |w.m|
    ensures forall i :: 0 <= i < |w.m| ==> j.fields["m"].items[i] == JInt(w.m[i])
  {
    JObject(map[
      "cycle" := JArray(seq(|w.cycle|, i requires 0 <= i < |w.cycle| => JString(w.cycle[i]))),
      "h" := JArray(seq(|w.h|, i requires 0 <= i < |w.h| => JInt(w.h[i]))),
      "m" := JArray(seq(|w.m|, i requires 0 <= i < |w.m| => JInt(w.m[i])))])
  }
}

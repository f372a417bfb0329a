/**
 * The timer and stopwatch registries of the time tool, and the day/hour/minute/second
 * breakdown of `get_time_difference`.
 *
 * The wall clock is an integer number of seconds passed to each operation, so every
 * elapsed or remaining time is a whole number of seconds and its fixed-point rendering
 * ends in zeros. Parsing a date-time string is an oracle input: an instant in seconds, or
 * the parser's error text.
 */
module TimeTool {
  import opened Strings

  datatype Timer = Timer(startTime: int, endTime: int, duration: int, finished: bool)

  datatype Stopwatch = Stopwatch(startTime: int, running: bool)

  /** `f"{x:.1f}"` and `f"{x:.2f}"` of a whole number. */
  function Fixed1(x: int): string { IntToString(x) + ".0" }
  function Fixed2(x: int): string { IntToString(x) + ".00" }

  // ---------------------------------------------------------------- timers

  /** The timers after `start_timer` and its reply. A name is refused only while its timer
      is unfinished; a finished timer of the same name is replaced. */
  function StartTimerNext(timers: map<string, Timer>, name: string, seconds: int, now: int): (map<string, Timer>, string)
  {
    if name in timers && !timers[name].finished then
      (timers, "错误：计时器 '" + name + "' 已在运行中")
    else
      (timers[name := Timer(now, now + seconds, seconds, false)],
       "计时器 '" + name + "' 已启动: " + IntToString(seconds) + " 秒")
  }

  /** The timers after `stop_timer` and its reply: the timer is marked finished whether it
      had already expired or not. */
  function StopTimerNext(timers: map<string, Timer>, name: string, now: int): (map<string, Timer>, string)
  {
    if name !in timers then (timers, "错误：计时器 '" + name + "' 不存在")
    else
      var t := timers[name];
      var stopped := timers[name := t.(finished := true)];
      if now >= t.endTime then (stopped, "计时器 '" + name + "' 已在 " + Fixed1(now - t.endTime) + " 秒前结束")
      else (stopped, "计时器 '" + name + "' 已停止，剩余 " + Fixed1(t.endTime - now) + " 秒")
  }

  lemma StartTimerSpec(timers: map<string, Timer>, name: string, seconds: int, now: int)
    ensures var (ts, _) := StartTimerNext(timers, name, seconds, now);
      && (name in timers && !timers[name].finished ==> ts == timers)
      && (name !in timers || timers[name].finished ==>
            && ts.Keys == timers.Keys + {name}
            && ts[name] == Timer(now, now + seconds, seconds, false)
            && ts[name].endTime - ts[name].startTime == seconds
            && forall k :: k in timers && k != name ==> ts[k] == timers[k])
  {
  }

  lemma StopTimerSpec(timers: map<string, Timer>, name: string, now: int)
    ensures var (ts, _) := StopTimerNext(timers, name, now);
      && (name !in timers ==> ts == timers)
      && (name in timers ==>
            && ts.Keys == timers.Keys
            && ts[name].finished
            && ts[name] == timers[name].(finished := true)
            && forall k :: k in timers && k != name ==> ts[k] == timers[k])
  {
  }

  /** A stopped timer frees its name: the next start under that name is accepted. */
  lemma StopThenStartAccepted(timers: map<string, Timer>, name: string, now: int, seconds: int, later: int)
    requires name in timers
    ensures var (ts, _) := StopTimerNext(timers, name, now);
      StartTimerNext(ts, name, seconds, later).0[name] == Timer(later, later + seconds, seconds, false)
  {
  }

  /** `_cleanup_timers`: every expired, unfinished timer is marked finished. */
  function CleanedUp(timers: map<string, Timer>, now: int): map<string, Timer>
  {
    map k | k in timers :: if now >= timers[k].endTime && !timers[k].finished then timers[k].(finished := true) else timers[k]
  }

  /** Exactly the expired timers end up finished (besides those finished before), nothing
      else changes, and a second cleanup at the same time changes nothing. */
  lemma CleanedUpSpec(timers: map<string, Timer>, now: int)
    ensures CleanedUp(timers, now).Keys == timers.Keys
    ensures forall k :: k in timers ==>
      && CleanedUp(timers, now)[k].finished == (timers[k].finished || now >= timers[k].endTime)
      && CleanedUp(timers, now)[k] == timers[k].(finished := CleanedUp(timers, now)[k].finished)
    ensures CleanedUp(CleanedUp(timers, now), now) == CleanedUp(timers, now)
  {
    var once := CleanedUp(timers, now);
    var twice := CleanedUp(once, now);
    assert forall k :: k in once ==> twice[k] == once[k];
  }

  // ---------------------------------------------------------------- stopwatches

  function StartStopwatchNext(stopwatches: map<string, Stopwatch>, name: string, now: int): (map<string, Stopwatch>, string)
  {
    if name in stopwatches then (stopwatches, "秒表 '" + name + "' 已在运行中")
    else (stopwatches[name := Stopwatch(now, true)], "秒表 '" + name + "' 已启动")
  }

  /** The reading of a stopped stopwatch: hours and minutes only when non-zero. */
  function StopwatchReading(name: string, elapsed: int): string
  {
    var hours := elapsed / 3600;
    var minutes := (elapsed % 3600) / 60;
    var seconds := elapsed % 60;
    if hours > 0 then "秒表 '" + name + "' 停止: " + IntToString(hours) + "小时 " + IntToString(minutes) + "分 " + Fixed2(seconds) + "秒"
    else if minutes > 0 then "秒表 '" + name + "' 停止: " + IntToString(minutes) + "分 " + Fixed2(seconds) + "秒"
    else "秒表 '" + name + "' 停止: " + Fixed2(seconds) + "秒"
  }

  function StopStopwatchNext(stopwatches: map<string, Stopwatch>, name: string, now: int): (map<string, Stopwatch>, string)
  {
    if name !in stopwatches then (stopwatches, "错误：秒表 '" + name + "' 不存在")
    else if !stopwatches[name].running then (stopwatches, "秒表 '" + name + "' 已停止")
    else
      var sw := stopwatches[name];
      (stopwatches[name := sw.(running := false)], StopwatchReading(name, now - sw.startTime))
  }

  lemma StopwatchSpec(stopwatches: map<string, Stopwatch>, name: string, now: int)
    ensures name in stopwatches ==> StartStopwatchNext(stopwatches, name, now).0 == stopwatches
    ensures name !in stopwatches ==> StartStopwatchNext(stopwatches, name, now).0 == stopwatches[name := Stopwatch(now, true)]
    ensures name !in stopwatches || !stopwatches[name].running ==> StopStopwatchNext(stopwatches, name, now).0 == stopwatches
    ensures name in stopwatches && stopwatches[name].running ==>
      StopStopwatchNext(stopwatches, name, now).0 == stopwatches[name := stopwatches[name].(running := false)]
  {
  }

  /** An operation on the two registries, with the clock reading it sees. */
  datatype Op =
    | StartTimer(timerName: string, seconds: int, at: int)
    | StopTimer(timerName: string, at: int)
    | StartStopwatch(stopwatchName: string, at: int)
    | StopStopwatch(stopwatchName: string, at: int)
    | Cleanup(at: int)

  datatype Registries = Registries(timers: map<string, Timer>, stopwatches: map<string, Stopwatch>)

  function Apply(r: Registries, op: Op): Registries
  {
    match op
    case StartTimer(name, seconds, at) => r.(timers := StartTimerNext(r.timers, name, seconds, at).0)
    case StopTimer(name, at) => r.(timers := StopTimerNext(r.timers, name, at).0)
    case StartStopwatch(name, at) => r.(stopwatches := StartStopwatchNext(r.stopwatches, name, at).0)
    case StopStopwatch(name, at) => r.(stopwatches := StopStopwatchNext(r.stopwatches, name, at).0)
    case Cleanup(at) => r.(timers := CleanedUp(r.timers, at))
  }

  function Run(r: Registries, ops: seq<Op>): Registries
    decreases |ops|
  {
    if ops == [] then r else Run(Apply(r, ops[0]), ops[1..])
  }

  /** Stopwatch names are never removed, so once a name has been used every later
      `start_stopwatch` under it is refused and leaves the stopwatches as they are. */
  lemma {:induction false} StopwatchNameNeverFreed(r: Registries, ops: seq<Op>, name: string, now: int)
    requires name in r.stopwatches
    ensures name in Run(r, ops).stopwatches
    ensures var sws := Run(r, ops).stopwatches;
      StartStopwatchNext(sws, name, now) == (sws, "秒表 '" + name + "' 已在运行中")
    decreases |ops|
  {
    if ops != [] {
      StopwatchNameNeverFreed(Apply(r, ops[0]), ops[1..], name, now);
    }
  }

  // ---------------------------------------------------------------- the registries

  class TimeRegistry {
    var timers: map<string, Timer>
    var stopwatches: map<string, Stopwatch>

    constructor ()
      ensures timers == map[] && stopwatches == map[]
    {
      timers := map[];
      stopwatches := map[];
    }

    method StartTimer(seconds: int, name: string, now: int) returns (reply: string)
      modifies this`timers
      ensures (timers, reply) == StartTimerNext(old(timers), name, seconds, now)
    {
      if name in timers && !timers[name].finished {
        return "错误：计时器 '" + name + "' 已在运行中";
      }
      timers := timers[name := Timer(now, now + seconds, seconds, false)];
      reply := "计时器 '" + name + "' 已启动: " + IntToString(seconds) + " 秒";
    }

    method StopTimer(name: string, now: int) returns (reply: string)
      modifies this`timers
      ensures (timers, reply) == StopTimerNext(old(timers), name, now)
    {
      if name !in timers {
        return "错误：计时器 '" + name + "' 不存在";
      }
      var t := timers[name];
      if now >= t.endTime {
        timers := timers[name := t.(finished := true)];
        reply := "计时器 '" + name + "' 已在 " + Fixed1(now - t.endTime) + " 秒前结束";
      } else {
        timers := timers[name := t.(finished := true)];
        reply := "计时器 '" + name + "' 已停止，剩余 " + Fixed1(t.endTime - now) + " 秒";
      }
    }

    method StartStopwatch(name: string, now: int) returns (reply: string)
      modifies this`stopwatches
      ensures (stopwatches, reply) == StartStopwatchNext(old(stopwatches), name, now)
    {
      if name in stopwatches {
        return "秒表 '" + name + "' 已在运行中";
      }
      stopwatches := stopwatches[name := Stopwatch(now, true)];
      reply := "秒表 '" + name + "' 已启动";
    }

    method StopStopwatch(name: string, now: int) returns (reply: string)
      modifies this`stopwatches
      ensures (stopwatches, reply) == StopStopwatchNext(old(stopwatches), name, now)
    {
      if name !in stopwatches {
        return "错误：秒表 '" + name + "' 不存在";
      }
      var sw := stopwatches[name];
      if !sw.running {
        return "秒表 '" + name + "' 已停止";
      }
      stopwatches := stopwatches[name := sw.(running := false)];
      reply := StopwatchReading(name, now - sw.startTime);
    }

    /** Collects the expired, unfinished names first, then marks each one finished. */
    method CleanupTimers(now: int)
      modifies this`timers
      ensures timers == CleanedUp(old(timers), now)
    {
      var pending := set k | k in timers && now >= timers[k].endTime && !timers[k].finished;
      ghost var due := pending;
      while pending != {}
        invariant pending <= due
        invariant timers.Keys == old(timers).Keys
        invariant forall k :: k in timers ==>
          timers[k] == if k in due - pending then old(timers)[k].(finished := true) else old(timers)[k]
        decreases pending
      {
        var k :| k in pending;
        timers := timers[k := timers[k].(finished := true)];
        pending := pending - {k};
      }
      assert forall k :: k in timers ==> timers[k] == CleanedUp(old(timers), now)[k];
    }
  }

  // ---------------------------------------------------------------- get_time_difference

  /** A date-time string as `strptime` reads it: seconds on a common scale, or its error. */
  datatype Instant = At(seconds: int) | Unparsable(reason: string)

  /** The `timedelta` fields of a non-negative difference and its breakdown. */
  function Breakdown(total: nat): (r: (nat, nat, nat, nat))
    ensures r.1 < 24 && r.2 < 60 && r.3 < 60
    ensures r.0 * 86400 + r.1 * 3600 + r.2 * 60 + r.3 == total
  {
    var days := total / 86400;
    var rest := total % 86400;
    (days, rest / 3600, (rest % 3600) / 60, rest % 60)
  }

  datatype Unit = Days | Hours | Minutes | Seconds

  function UnitName(u: Unit): string
  {
    match u
    case Days => "天"
    case Hours => "小时"
    case Minutes => "分钟"
    case Seconds => "秒"
  }

  /** The components that are written out, as (value, unit) pairs in order: zero days,
      hours and minutes are omitted, and the seconds appear when non-zero or when nothing
      else does. */
  function Components(days: nat, hours: nat, minutes: nat, seconds: nat): (cs: seq<(nat, Unit)>)
  {
    (if days > 0 then [(days, Days)] else [])
    + (if hours > 0 then [(hours, Hours)] else [])
    + (if minutes > 0 then [(minutes, Minutes)] else [])
    + (if seconds > 0 || (days == 0 && hours == 0 && minutes == 0) then [(seconds, Seconds)] else [])
  }

  lemma ComponentsSpec(days: nat, hours: nat, minutes: nat, seconds: nat)
    ensures var cs := Components(days, hours, minutes, seconds);
      && cs != []
      && ((days, Days) in cs <==> days > 0)
      && ((hours, Hours) in cs <==> hours > 0)
      && ((minutes, Minutes) in cs <==> minutes > 0)
      && ((seconds, Seconds) in cs <==> seconds > 0 || (days == 0 && hours == 0 && minutes == 0))
      && |cs| <= 4
  {
  }

  /** The rendered components: each non-final one followed by a space, the seconds not. */
  function ComponentsText(days: nat, hours: nat, minutes: nat, seconds: nat): string
  {
    (if days > 0 then NatToString(days) + "天 " else "")
    + (if hours > 0 then NatToString(hours) + "小时 " else "")
    + (if minutes > 0 then NatToString(minutes) + "分钟 " else "")
    + (if seconds > 0 || (days == 0 && hours == 0 && minutes == 0) then NatToString(seconds) + "秒" else "")
  }

  /** One written component: the number, its unit, and a space after every unit but the
      seconds. */
  function Render(c: (nat, Unit)): string
  {
    NatToString(c.0) + UnitName(c.1) + (if c.1 == Seconds then "" else " ")
  }

  function Renders(cs: seq<(nat, Unit)>): (rs: seq<string>)
    ensures |rs| == |cs|
    ensures forall i :: 0 <= i < |cs| ==> rs[i] == Render(cs[i])
  {
    seq(|cs|, i requires 0 <= i < |cs| => Render(cs[i]))
  }

  lemma RendersAppend(x: seq<(nat, Unit)>, y: seq<(nat, Unit)>)
    ensures Renders(x + y) == Renders(x) + Renders(y)
  {
  }

  /** An optional component renders to its text, or to nothing. */
  lemma OptionalRender(written: bool, value: nat, unit: Unit)
    ensures Join(Renders(if written then [(value, unit)] else []), "")
         == if written then Render((value, unit)) else ""
  {
    if written {
      assert Renders([(value, unit)]) == [Render((value, unit))];
    } else {
      assert Renders([]) == [];
    }
  }

  /** The text is the written components, in order, rendered one after another. */
  lemma ComponentsTextRendersComponents(days: nat, hours: nat, minutes: nat, seconds: nat)
    ensures ComponentsText(days, hours, minutes, seconds) == Join(Renders(Components(days, hours, minutes, seconds)), "")
  {
    var lastWritten := seconds > 0 || (days == 0 && hours == 0 && minutes == 0);
    var a := if days > 0 then [(days, Days)] else [];
    var b := if hours > 0 then [(hours, Hours)] else [];
    var c := if minutes > 0 then [(minutes, Minutes)] else [];
    var d := if lastWritten then [(seconds, Seconds)] else [];
    var ra, rb, rc, rd := Renders(a), Renders(b), Renders(c), Renders(d);
    assert Components(days, hours, minutes, seconds) == a + b + c + d;
    RendersAppend(a + b + c, d);
    RendersAppend(a + b, c);
    RendersAppend(a, b);
    JoinEmptyAppend(ra + rb + rc, rd);
    JoinEmptyAppend(ra + rb, rc);
    JoinEmptyAppend(ra, rb);
    var joined := Join(ra, "") + Join(rb, "") + Join(rc, "") + Join(rd, "");
    assert Join(ra + rb + rc + rd, "") == joined;
    OptionalRender(days > 0, days, Days);
    OptionalRender(hours > 0, hours, Hours);
    OptionalRender(minutes > 0, minutes, Minutes);
    OptionalRender(lastWritten, seconds, Seconds);
    PieceText(days > 0, days, Days);
    PieceText(hours > 0, hours, Hours);
    PieceText(minutes > 0, minutes, Minutes);
    PieceText(lastWritten, seconds, Seconds);
  }

  /** The rendering of one optional component is the text the source appends for it. */
  lemma PieceText(written: bool, value: nat, unit: Unit)
    ensures (if written then Render((value, unit)) else "")
         == if written then NatToString(value) + (match unit
                                                  case Days => "天 "
                                                  case Hours => "小时 "
                                                  case Minutes => "分钟 "
                                                  case Seconds => "秒")
            else ""
  {
  }

  /** `get_time_difference`. The final `strip()` has nothing to remove: the text starts
      with its label and ends with a closing parenthesis. */
  function TimeDifference(start: Instant, end: Instant): string
  {
    match (start, end)
    case (Unparsable(reason), _) => "错误：" + reason
    case (_, Unparsable(reason)) => "错误：" + reason
    case (At(s), At(e)) =>
      if e < s then "错误：结束时间不能早于开始时间"
      else
        var total: nat := e - s;
        var (d, h, m, sec) := Breakdown(total);
        "时间差: " + ComponentsText(d, h, m, sec) + " (总计 " + GroupThousands(total) + " 秒)"
  }

  /** An end before the start is refused; otherwise the text is the label, the written
      components and the grouped total. */
  lemma TimeDifferenceSpec(s: int, e: int)
    ensures e < s ==> TimeDifference(At(s), At(e)) == "错误：结束时间不能早于开始时间"
    ensures e >= s ==> var (d, h, m, sec) := Breakdown(e - s);
      && d * 86400 + h * 3600 + m * 60 + sec == e - s
      && h < 24 && m < 60 && sec < 60
      && TimeDifference(At(s), At(e)) == "时间差: " + ComponentsText(d, h, m, sec) + " (总计 " + GroupThousands(e - s) + " 秒)"
  {
  }
}

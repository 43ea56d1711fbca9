/** The notification panel: the notifications generated from the current
    AQI data, the relative time shown beside each, dismissal, and how many
    are visible. Times are milliseconds; `now` stands for `Date.now()`. */
module Notifications {
  import opened Wrappers
  import opened Numeric
  import opened Text
  import opened Seqs

  /** The `aqiData` prop. */
  datatype AqiData = AqiData(aqi: int, level: string, recommendation: string)

  datatype Kind = Alert | Info

  datatype Notification = Notification(id: string, title: string, message: string, kind: Kind, timestamp: int)

  const PurifierAdvice: string := "Consider using air purifiers indoors and wearing masks when outside."
  const SensitiveAdvice: string := "Sensitive individuals should consider limiting prolonged outdoor activities."
  const WaitingMessage: string := "We'll notify you when air quality information becomes available for your location."

  /** Ten minutes, the age given to the health recommendation. */
  const TenMinutes: int := 1000 * 60 * 10

  /** The primary notification's text: level, index and recommendation. */
  function Summary(d: AqiData): string {
    d.level + " air quality levels detected (AQI: " + IntToString(d.aqi) + "). " + d.recommendation
  }

  /** The effect that regenerates the list: one primary notification whose
      title and kind follow the index, a health recommendation above 50,
      and a single waiting notice without data. */
  method GenerateNotifications(data: Option<AqiData>, now: int) returns (ns: seq<Notification>)
    ensures data.None? ==> ns == [Notification("waiting-" + IntToString(now), "Waiting for Air Quality Data", WaitingMessage, Info, now)]
    ensures data.Some? ==> |ns| == (if data.value.aqi > 50 then 2 else 1)
    ensures data.Some? ==>
      var d := data.value;
      && ns[0].message == Summary(d) && ns[0].timestamp == now
      && (d.aqi > 100 ==> ns[0].title == "Air Quality Alert" && ns[0].kind == Alert && ns[0].id == "aqi-alert-" + IntToString(now))
      && (50 < d.aqi <= 100 ==> ns[0].title == "Air Quality Warning" && ns[0].kind == Info && ns[0].id == "aqi-warning-" + IntToString(now))
      && (d.aqi <= 50 ==> ns[0].title == "Air Quality Update" && ns[0].kind == Info && ns[0].id == "aqi-info-" + IntToString(now))
    ensures data.Some? && data.value.aqi > 50 ==>
      && ns[1].title == "Health Recommendation" && ns[1].id == "health-rec-" + IntToString(now)
      && (ns[1].kind == Alert <==> data.value.aqi > 100)
      && (ns[1].message == PurifierAdvice <==> data.value.aqi > 150)
      && (ns[1].message == SensitiveAdvice <==> data.value.aqi <= 150)
      && ns[1].timestamp == now - TenMinutes
  {
    if data.None? {
      ns := [Notification("waiting-" + IntToString(now), "Waiting for Air Quality Data", WaitingMessage, Info, now)];
      return;
    }
    var d := data.value;
    ns := [];
    if d.aqi > 100 {
      ns := ns + [Notification("aqi-alert-" + IntToString(now), "Air Quality Alert", Summary(d), Alert, now)];
    } else if d.aqi > 50 {
      ns := ns + [Notification("aqi-warning-" + IntToString(now), "Air Quality Warning", Summary(d), Info, now)];
    } else {
      ns := ns + [Notification("aqi-info-" + IntToString(now), "Air Quality Update", Summary(d), Info, now)];
    }
    if d.aqi > 50 {
      var advice := if d.aqi > 150 then PurifierAdvice else SensitiveAdvice;
      var kind := if d.aqi > 100 then Alert else Info;
      ns := ns + [Notification("health-rec-" + IntToString(now), "Health Recommendation", advice, kind, now - TenMinutes)];
    }
  }

  // ---------------------------------------------------------------------
  // formatTime

  /** `Math.round` of the elapsed minutes. */
  function RoundedMinutes(elapsed: int): int {
    Round(elapsed as real / 60000.0)
  }

  /** `N unit` or `N units`: the plural unless N is exactly 1. */
  function Counted(n: int, unit: string): string {
    IntToString(n) + " " + unit + (if n != 1 then "s" else "") + " ago"
  }

  /** `formatTime` for a notification `elapsed` milliseconds old: rounded
      minutes below an hour, counting from 59.5 minutes as an hour, and
      rounded hours beyond. */
  function FormatAgo(elapsed: int): (r: string)
    ensures elapsed < 3570000 ==> r == Counted(RoundedMinutes(elapsed), "min")
    ensures elapsed >= 3570000 ==> r == Counted(Round(RoundedMinutes(elapsed) as real / 60.0), "hour")
    ensures elapsed >= 3570000 ==> Round(RoundedMinutes(elapsed) as real / 60.0) >= 1
  {
    var minutes := RoundedMinutes(elapsed);
    if minutes < 60 then Counted(minutes, "min")
    else
      RoundAtLeast(minutes as real / 60.0, 1);
      Counted(Round(minutes as real / 60.0), "hour")
  }

  /** Half a minute already counts as one minute, and a count of 1 is
      singular. */
  lemma FormatAgoMinuteExamples()
    ensures FormatAgo(29999) == "0 mins ago"
    ensures FormatAgo(30000) == "1 min ago"
  {
    assert Round(29999.0 / 60000.0) == 0;
    RoundOfInt(1);
    assert RoundedMinutes(30000) == 1;
    assert IntToString(0) == "0";
    assert IntToString(1) == "1";
  }

  /** An hour is singular, and 90 minutes rounds up to two hours. */
  lemma FormatAgoHourExamples()
    ensures FormatAgo(3600000) == "1 hour ago"
    ensures FormatAgo(5400000) == "2 hours ago"
  {
    RoundOfInt(60);
    RoundOfInt(90);
    RoundOfInt(1);
    assert RoundedMinutes(3600000) == 60;
    assert RoundedMinutes(5400000) == 90;
    assert Round(1.5) == 2;
    assert IntToString(1) == "1";
    assert IntToString(2) == "2";
  }

  // ---------------------------------------------------------------------
  // Dismissal and the visible slice

  /** The filter's test: a notification is kept unless it carries `id`. */
  function OtherId(id: string): Notification -> bool {
    (n: Notification) => n.id != id
  }

  /** `dismissNotification(id)`: drops exactly the notifications carrying
      `id`, keeping the rest in order. */
  function Dismiss(ns: seq<Notification>, id: string): (r: seq<Notification>)
    ensures forall n :: n in r ==> n in ns && n.id != id
    ensures forall i :: 0 <= i < |ns| && ns[i].id != id ==> ns[i] in r
    ensures SubsequenceOf(r, ns)
    ensures forall n :: multiset(r)[n] == if n.id != id then multiset(ns)[n] else 0
  {
    FilterIsSubsequence(ns, OtherId(id));
    Filter(ns, OtherId(id))
  }

  /** Dismissing an id that is not shown changes nothing. */
  lemma DismissAbsent(ns: seq<Notification>, id: string)
    requires forall i :: 0 <= i < |ns| ==> ns[i].id != id
    ensures Dismiss(ns, id) == ns
  {
    FilterKeepsAll(ns, OtherId(id));
  }

  /** `showAll ? notifications : notifications.slice(0, 2)`. */
  function Visible(ns: seq<Notification>, showAll: bool): (r: seq<Notification>)
    ensures r <= ns
    ensures |r| == (if showAll then |ns| else Min(2, |ns|))
  {
    if showAll then ns else ns[..Min(2, |ns|)]
  }

  /** The toggle under the list: shown only with more than two
      notifications, reading "Show less" or how many are hidden. */
  function ShowMoreLabel(ns: seq<Notification>, showAll: bool): (r: Option<string>)
    ensures r.Some? <==> |ns| > 2
    ensures r.Some? && !showAll ==> r.value == "Show " + IntToString(|ns| - |Visible(ns, false)|) + " more"
    ensures r.Some? && showAll ==> r.value == "Show less"
  {
    if |ns| <= 2 then None
    else if showAll then Some("Show less")
    else Some("Show " + IntToString(|ns| - 2) + " more")
  }

  /** A freshly generated list has at most two notifications, so every one
      is visible and no toggle is shown. */
  lemma GeneratedListFits(ns: seq<Notification>, showAll: bool)
    requires |ns| <= 2
    ensures Visible(ns, showAll) == ns
    ensures ShowMoreLabel(ns, showAll).None?
  {
  }
}

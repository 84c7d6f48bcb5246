/** The dashboard: live microgrid figures, refreshed every few seconds by a mock
    generator, and a bounded newest-first log of events. */
module Dashboard {
  import opened Wrappers
  import opened Seqs

  datatype Stats = Stats(solar: real, wind: real, load: real, soc: real)

  datatype EventKind = Charge | Discharge | SolarEvent | WindEvent | Info

  datatype Event = Event(time: string, message: string, kind: EventKind)

  const MaxEvents: nat := 10
  const MinSoc: real := 0.1
  const MaxSoc: real := 0.95

  function InitialStats(): Stats
  {
    Stats(5.2, 3.8, 7.1, 0.72)
  }

  function InitialEvents(): (events: seq<Event>)
    ensures |events| == 5
    ensures forall i, j :: 0 <= i < j < |events| ==> events[i].kind != events[j].kind
    ensures forall i :: 0 <= i < |events| ==> |events[i].time| == 5 && events[i].time[2] == ':'
  {
    [ Event("14:15", "PPO-агент: Начата зарядка батареи (+4.2 кВт)", Charge),
      Event("13:50", "Увеличение солнечной генерации до 6.1 кВт", SolarEvent),
      Event("13:20", "Нагрузка выросла до 8.3 кВт — разряд батареи", Discharge),
      Event("12:45", "Ветер: 4.8 кВт (стабильно)", WindEvent),
      Event("12:00", "Система в балансе. SOC: 78%", Info) ]
  }

  /** `[{ time, message, type }, ...prev.slice(0, 9)]`: the new event first, then the
      nine newest of the previous ones. */
  function PrependEvent(events: seq<Event>, e: Event): (r: seq<Event>)
    ensures |r| == Min(MaxEvents, |events| + 1)
    ensures r[0] == e && r[1..] == events[..|r| - 1]
  {
    [e] + First(events, MaxEvents - 1)
  }

  /** Prepending the events `es`, oldest first, to a log of at most ten entries gives
      the newest ten of all of them, newest first. */
  lemma {:induction false} PrependAll(log: seq<Event>, es: seq<Event>)
    requires |log| <= MaxEvents
    ensures PrependEach(log, es) == (Reverse(es) + log)[..Min(MaxEvents, |es| + |log|)]
    decreases |es|
  {
    if es == [] {
      assert (Reverse(es) + log)[..|log|] == log;
    } else {
      var init := es[..|es| - 1];
      var e := es[|es| - 1];
      PrependAll(log, init);
      var older := Reverse(init) + log;
      assert Reverse(es) + log == [e] + older;
      PrependOfPrefix(older, e);
    }
  }

  /** Adding one event to the newest ten of `older` is the same as taking the newest
      ten after putting the event in front of all of `older`. */
  lemma PrependOfPrefix(older: seq<Event>, e: Event)
    ensures PrependEvent(older[..Min(MaxEvents, |older|)], e) == ([e] + older)[..Min(MaxEvents, |older| + 1)]
  {
    var r := PrependEvent(older[..Min(MaxEvents, |older|)], e);
    var t := ([e] + older)[..Min(MaxEvents, |older| + 1)];
    forall k | 0 <= k < |r| ensures r[k] == t[k] {
      if k > 0 {
        assert r[k] == r[1..][k - 1];
      }
    }
  }

  /** The log after each of `es` was added in turn. */
  function PrependEach(log: seq<Event>, es: seq<Event>): (r: seq<Event>)
    ensures |log| <= MaxEvents ==> |r| <= MaxEvents
    decreases |es|
  {
    if es == [] then log else PrependEvent(PrependEach(log, es[..|es| - 1]), es[|es| - 1])
  }

  /** `Math.max(0.1, Math.min(0.95, prev + (random - 0.5) * 0.08))`. */
  function NextSoc(prev: real, random: real): (soc: real)
    ensures MinSoc <= soc <= MaxSoc
    ensures MinSoc <= prev + (random - 0.5) * 0.08 <= MaxSoc ==> soc == prev + (random - 0.5) * 0.08
    ensures prev + (random - 0.5) * 0.08 < MinSoc ==> soc == MinSoc
    ensures prev + (random - 0.5) * 0.08 > MaxSoc ==> soc == MaxSoc
  {
    var raw := prev + (random - 0.5) * 0.08;
    if raw > MaxSoc then MaxSoc else if raw < MinSoc then MinSoc else raw
  }

  /** From a charge level inside the band, one update moves it by at most 0.04. */
  lemma SocStepIsSmall(prev: real, random: real)
    requires MinSoc <= prev <= MaxSoc && 0.0 <= random < 1.0
    ensures -0.04 <= NextSoc(prev, random) - prev <= 0.04
  {
  }

  /** One tick of the mock generator. `Draws` holds the six `Math.random()` values in
      the order the callback takes them. */
  datatype Draws = Draws(solar: real, wind: real, load: real, soc: real, fire: real, kind: real)

  predicate ValidDraws(d: Draws)
  {
    && 0.0 <= d.solar < 1.0 && 0.0 <= d.wind < 1.0 && 0.0 <= d.load < 1.0
    && 0.0 <= d.soc < 1.0 && 0.0 <= d.fire < 1.0 && 0.0 <= d.kind < 1.0
  }

  function NextStats(prev: Stats, d: Draws): (s: Stats)
    ensures s.soc == NextSoc(prev.soc, d.soc)
    ensures ValidDraws(d) ==> 1.0 <= s.solar < 8.0 && 1.0 <= s.wind < 7.0 && 6.0 <= s.load < 10.0
  {
    Stats(d.solar * 7.0 + 1.0, d.wind * 6.0 + 1.0, 6.0 + d.load * 4.0, NextSoc(prev.soc, d.soc))
  }

  /** `types[Math.floor(Math.random() * types.length)]`. */
  function KindOf(random: real): (k: EventKind)
    requires 0.0 <= random < 1.0
    ensures random < 0.2 <==> k == Charge
    ensures 0.2 <= random < 0.4 <==> k == Discharge
    ensures 0.4 <= random < 0.6 <==> k == SolarEvent
    ensures 0.6 <= random < 0.8 <==> k == WindEvent
    ensures 0.8 <= random <==> k == Info
  {
    var index := (random * 5.0).Floor;
    if index == 0 then Charge
    else if index == 1 then Discharge
    else if index == 2 then SolarEvent
    else if index == 3 then WindEvent
    else Info
  }

  /** `messages[type]`. */
  function MessageOf(k: EventKind): string
  {
    match k
    case Charge => "PPO-агент: Зарядка батареи"
    case Discharge => "PPO-агент: Разрядка батареи (высокая нагрузка)"
    case SolarEvent => "Изменение солнечной генерации"
    case WindEvent => "Изменение ветровой генерации"
    case Info => "Система в стабильном состоянии"
  }

  /** `n.toString().padStart(2, "0")` for an hour or a minute. */
  function TwoDigits(n: nat): (s: string)
    requires n < 100
    ensures |s| == 2 && '0' <= s[0] <= '9' && '0' <= s[1] <= '9'
    ensures (s[0] as int - '0' as int) * 10 + (s[1] as int - '0' as int) == n
  {
    [('0' as int + n / 10) as char, ('0' as int + n % 10) as char]
  }

  /** The `HH:MM` stamp of a new event. */
  function Clock(hours: nat, minutes: nat): (s: string)
    requires hours < 24 && minutes < 60
    ensures |s| == 5 && s[2] == ':'
    ensures s[..2] == TwoDigits(hours) && s[3..] == TwoDigits(minutes)
  {
    TwoDigits(hours) + ":" + TwoDigits(minutes)
  }

  datatype BatteryIcon = Full | Half | Empty

  /** `getBatteryIcon`. */
  function BatteryIconOf(soc: real): (icon: BatteryIcon)
    ensures icon == Full <==> soc > 0.7
    ensures icon == Half <==> 0.3 < soc <= 0.7
    ensures icon == Empty <==> soc <= 0.3
  {
    if soc > 0.7 then Full else if soc > 0.3 then Half else Empty
  }

  /** The charge figure is drawn green above 0.3 and red otherwise. */
  predicate SocTextGreen(soc: real)
  {
    soc > 0.3
  }

  /** The colour of the charge figure and the battery icon agree: green exactly when
      the icon is not the empty one. */
  lemma SocColourMatchesIcon(soc: real)
    ensures SocTextGreen(soc) <==> BatteryIconOf(soc) != Empty
  {
  }

  /** `totalGeneration - stats.load`. */
  function Balance(s: Stats): (b: real)
    ensures b > 0.0 <==> s.solar + s.wind > s.load
  {
    s.solar + s.wind - s.load
  }

  const Surplus: string := "Избыток"
  const Deficit: string := "Дефицит"

  function BalanceText(s: Stats): (text: string)
    ensures text == Surplus <==> Balance(s) > 0.0
    ensures text == Deficit <==> Balance(s) <= 0.0
  {
    if Balance(s) > 0.0 then Surplus else Deficit
  }

  datatype Trend = Up | Down

  function SolarTrend(s: Stats): (t: Trend)
    ensures t == Up <==> s.solar > 4.0
  {
    if s.solar > 4.0 then Up else Down
  }

  function WindTrend(s: Stats): (t: Trend)
    ensures t == Up <==> s.wind > 3.0
  {
    if s.wind > 3.0 then Up else Down
  }

  /** The component state of the dashboard. */
  class DashboardState {
    var stats: Stats
    var events: seq<Event>

    /** The charge level stays in its band and the log holds at most ten events. */
    predicate Valid()
      reads this
    {
      MinSoc <= stats.soc <= MaxSoc && |events| <= MaxEvents
    }

    constructor ()
      ensures stats == InitialStats() && events == InitialEvents()
      ensures Valid()
    {
      stats := InitialStats();
      events := InitialEvents();
    }

    /** One interval callback: new figures always; a new event, stamped with the current
        wall-clock time, when the `fire` draw exceeds 0.7. */
    method Tick(d: Draws, hours: nat, minutes: nat)
      requires Valid() && ValidDraws(d) && hours < 24 && minutes < 60
      modifies this`stats, this`events
      ensures Valid()
      ensures stats == NextStats(old(stats), d)
      ensures d.fire > 0.7 ==>
                events == PrependEvent(old(events), Event(Clock(hours, minutes), MessageOf(KindOf(d.kind)), KindOf(d.kind)))
      ensures d.fire <= 0.7 ==> events == old(events)
    {
      stats := NextStats(stats, d);
      if d.fire > 0.7 {
        var kind := KindOf(d.kind);
        events := PrependEvent(events, Event(Clock(hours, minutes), MessageOf(kind), kind));
      }
    }
  }
}

/** The date-scoped scores page: the day label, the winner flags of a game card, what
    the page shows, and the page's fetch cycle and date navigation. */
module ScoresPage {
  import opened Common
  import opened Games
  import opened DateKeys

  // ------------------------------------------------------------ day label

  /** The heading of the selected day; `Formatted` is the locale rendering of the key. */
  datatype DayLabel = Today | Yesterday | Tomorrow | Formatted(key: string)

  /** `friendlyDate(dateStr)`, with the Eastern-time calendar date passed in as `now`.
      The three relative labels are tried in order: today, yesterday, tomorrow. */
  function FriendlyDate(s: string, now: Date): (l: DayLabel)
    requires ValidDate(now)
    ensures l == Today <==> s == ToDateStr(now)
    ensures l == Yesterday <==> s != ToDateStr(now) && s == AddDays(ToDateStr(now), -1)
    ensures l == Tomorrow <==>
      s != ToDateStr(now) && s != AddDays(ToDateStr(now), -1) && s == AddDays(ToDateStr(now), 1)
    ensures l.Formatted? ==> l.key == s
  {
    var today := ToDateStr(now);
    var yesterday := AddDays(today, -1);
    var tomorrow := AddDays(today, 1);
    if s == today then Today
    else if s == yesterday then Yesterday
    else if s == tomorrow then Tomorrow
    else Formatted(s)
  }

  /** The labels mean what they say: Yesterday is exactly the key of the calendar day
      before today, Tomorrow exactly the day after; the order of the tests never hides one. */
  lemma FriendlyDateCalendar(s: string, now: Date)
    requires ValidDate(now) && 1000 <= now.year <= 9999
    ensures FriendlyDate(s, now) == Yesterday <==> s == ToDateStr(PrevDay(now))
    ensures FriendlyDate(s, now) == Tomorrow <==> s == ToDateStr(NextDay(now))
  {
    var today := ToDateStr(now);
    ParseToDateStr(now);
    assert Shift(now, -1) == PrevDay(now);
    assert Shift(now, 1) == NextDay(now);
    AddDaysOneChanges(today);
  }

  // ---------------------------------------------------------- winner flags

  datatype WinnerFlags = WinnerFlags(homeWin: bool, awayWin: bool)

  /** `homeWin` / `awayWin` of a game card: highlight the team ahead on a final game. */
  function Winners(g: Game): (w: WinnerFlags)
    ensures (w.homeWin || w.awayWin) ==> g.status == Final
    ensures !(w.homeWin && w.awayWin)
    ensures g.homeScore == g.awayScore ==> !w.homeWin && !w.awayWin
    ensures g.status == Final && g.homeScore != g.awayScore ==>
      w.homeWin != w.awayWin && (w.homeWin <==> g.homeScore > g.awayScore)
  {
    var isFinal := g.status == Final;
    WinnerFlags(isFinal && g.homeScore > g.awayScore, isFinal && g.awayScore > g.homeScore)
  }

  // ------------------------------------------------------------- the view

  /** A section heading with its count, and the games below it. */
  datatype Section = Section(count: nat, games: seq<Game>)

  datatype GamesArea =
    | Skeletons
    | NoGames(day: DayLabel)
    | Sections(live: Option<Section>, final: Option<Section>, upcoming: Option<Section>)

  datatype PageView = PageView(day: DayLabel, isToday: bool, backToToday: bool, area: GamesArea)

  /** `scores?.list?.length > 0 && <section>` */
  function SectionFor(l: Option<seq<Game>>): (r: Option<Section>)
    ensures r.Some? <==> l.Some? && |l.value| > 0
    ensures r.Some? ==> r.value.count == |r.value.games| && r.value.games == l.value
  {
    if l.Some? && |l.value| > 0 then Some(Section(|l.value|, l.value)) else None
  }

  /** What the page renders for the selected key, the stored scores and the loading flag. */
  function View(date: string, scores: Option<Snapshot>, loading: bool, now: Date): (v: PageView)
    requires ValidDate(now)
    ensures v.day == FriendlyDate(date, now)
    ensures v.isToday <==> date == ToDateStr(now)
    ensures v.backToToday <==> date != ToDateStr(now)
    ensures v.area == Skeletons <==> loading
    ensures v.area.NoGames? <==> !loading && AllGames(scores) == []
    ensures v.area.Sections? ==>
      && scores.Some?
      && v.area.live == SectionFor(scores.value.live)
      && v.area.final == SectionFor(scores.value.final)
      && v.area.upcoming == SectionFor(scores.value.upcoming)
      && (v.area.live.Some? || v.area.final.Some? || v.area.upcoming.Some?)
  {
    var isToday := date == ToDateStr(now);
    var area :=
      if loading then Skeletons
      else if AllGames(scores) == [] then NoGames(FriendlyDate(date, now))
      else Sections(SectionFor(scores.value.live), SectionFor(scores.value.final),
                    SectionFor(scores.value.upcoming));
    PageView(FriendlyDate(date, now), isToday, !isToday, area)
  }

  // ------------------------------------------------------------ the page

  /** The page's state cells; `requests` lists the date of every fetch issued, in order.
      Responses carry no request identity: a late response for an earlier date is stored
      like any other. */
  class ScoresPage {
    var date: string
    var scores: Option<Snapshot>
    var loading: bool
    var requests: seq<string>

    /** First render and the mount effect: today's key, and a fetch for it. */
    constructor (now: Date)
      requires ValidDate(now)
      ensures date == ToDateStr(now) && scores.None? && loading && requests == [date]
    {
      date := ToDateStr(now);
      scores := None;
      loading := true;
      requests := [ToDateStr(now)];
    }

    /** `fetchScores(d)` up to the request: clear the scores and show the skeletons. */
    method FetchScores(d: string)
      modifies this
      ensures loading && scores.None?
      ensures requests == old(requests) + [d] && date == old(date)
    {
      loading := true;
      scores := None;
      requests := requests + [d];
    }

    /** The rest of `fetchScores`: store the body only on a 2xx; always stop loading. */
    method OnResponse(outcome: Response<Snapshot>)
      modifies this
      ensures !loading
      ensures scores == if outcome.Ok? then Some(outcome.data) else old(scores)
      ensures date == old(date) && requests == old(requests)
    {
      if outcome.Ok? {
        scores := Some(outcome.data);
      }
      loading := false;
    }

    /** `setDate(d)`; the effect on `date` refetches only when the key actually changed. */
    method SetDate(d: string)
      modifies this
      ensures date == d
      ensures d != old(date) ==> loading && scores.None? && requests == old(requests) + [d]
      ensures d == old(date) ==> loading == old(loading) && scores == old(scores) && requests == old(requests)
    {
      if d != date {
        date := d;
        FetchScores(d);
      }
    }

    /** "← Prev": the day before; a valid key always changes, so it always refetches. */
    method Prev()
      modifies this
      ensures date == AddDays(old(date), -1)
      ensures date != old(date) ==> loading && scores.None? && requests == old(requests) + [date]
      ensures date == old(date) ==> loading == old(loading) && scores == old(scores) && requests == old(requests)
    {
      SetDate(AddDays(date, -1));
    }

    /** "Next →": the day after. */
    method Next()
      modifies this
      ensures date == AddDays(old(date), 1)
      ensures date != old(date) ==> loading && scores.None? && requests == old(requests) + [date]
      ensures date == old(date) ==> loading == old(loading) && scores == old(scores) && requests == old(requests)
    {
      SetDate(AddDays(date, 1));
    }

    /** "↩ Back to Today", offered only while another day is shown. */
    method BackToToday(now: Date)
      requires ValidDate(now)
      requires View(date, scores, loading, now).backToToday
      modifies this
      ensures date == ToDateStr(now)
      ensures loading && scores.None? && requests == old(requests) + [date]
    {
      SetDate(ToDateStr(now));
    }
  }

  /** From a valid four-digit-year day, "Next" always moves to another key. */
  lemma NextFromTodayMoves(now: Date)
    requires ValidDate(now) && 1000 <= now.year <= 9999
    ensures AddDays(ToDateStr(now), 1) != ToDateStr(now)
  {
    ParseToDateStr(now);
    AddDaysOneChanges(ToDateStr(now));
  }

  /** A failed fetch shows the empty state, not the previous day's games. */
  method FailedFetchShowsNoGames(now: Date, earlier: Snapshot, failure: Response<Snapshot>)
    requires ValidDate(now) && 1000 <= now.year <= 9999
    requires !failure.Ok?
  {
    NextFromTodayMoves(now);
    var page := new ScoresPage(now);
    page.OnResponse(Ok(earlier));
    assert page.scores == Some(earlier);
    page.Next();
    assert page.requests == [ToDateStr(now), page.date];
    page.OnResponse(failure);
    assert page.scores.None? && !page.loading;
    var v := View(page.date, page.scores, page.loading, now);
    assert v.area.NoGames?;
  }
}

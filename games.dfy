/** The game-state values the score endpoint returns, and the display helpers that
    both the ticker and the scores page apply to them. */
module Games {
  import opened Common

  datatype Status = Upcoming | Live | Final | OtherStatus(name: string)

  datatype Team = Team(abbreviation: string, name: string)

  /** One game as received; `period` and `clock` may be null. */
  datatype Game = Game(
    id: string,
    homeTeam: Team,
    awayTeam: Team,
    homeScore: int,
    awayScore: int,
    status: Status,
    period: Option<int>,
    clock: Option<string>,
    kickoff: Option<string>)

  /** One response of the score endpoint: three optional lists and a timestamp. */
  datatype Snapshot = Snapshot(
    live: Option<seq<Game>>,
    final: Option<seq<Game>>,
    upcoming: Option<seq<Game>>,
    lastUpdated: Option<string>)

  // ---------------------------------------------------------- formatClock

  /** JavaScript truthiness of a nullable period: present and not 0. */
  predicate PeriodTruthy(period: Option<int>) {
    period.Some? && period.value != 0
  }

  const ClockSeparator: string := " · "

  /** The quarter / overtime label with the game clock after it, when there is one. */
  function FormatClock(period: Option<int>, clock: Option<string>): (r: string)
    ensures r == "" <==> !PeriodTruthy(period)
    ensures PeriodTruthy(period) ==> (r[0] == 'Q' <==> period.value <= 4)
    ensures PeriodTruthy(period) ==> (r[0] == 'O' <==> period.value > 4)
  {
    if !PeriodTruthy(period) then ""
    else
      var q := PeriodText(period.value);
      if Truthy(clock) then q + ClockSeparator + clock.value else q
  }

  /** What a reader recovers from a clock label: the period and the clock, if shown. */
  datatype ClockLabel = ClockLabel(period: int, clock: Option<string>)

  /** Reads a label back: `Q<int>` or `OT<n>` up to the first space, then an optional
      separator and clock. */
  function ParseClockLabel(s: string): Option<ClockLabel> {
    var k := FirstSpace(s);
    var period, clock := ParseHead(s[..k]), ParseRest(s[k..]);
    if period.Some? && clock.Some? then Some(ClockLabel(period.value, clock.value)) else None
  }

  /** The period a `Q<int>` or `OT<n>` head names. */
  function ParseHead(head: string): Option<int> {
    if |head| >= 2 && head[0] == 'Q' then ParseInt(head[1..])
    else if |head| >= 3 && head[..2] == "OT" then
      (match ParseInt(head[2..]) case Some(n) => Some(n + 4) case None => None)
    else None
  }

  /** The clock after the head: none, or whatever follows the separator. */
  function ParseRest(rest: string): Option<Option<string>> {
    if rest == [] then Some(None)
    else if ClockSeparator <= rest then Some(Some(rest[|ClockSeparator|..]))
    else None
  }

  /** The period part of a label, as FormatClock writes it. */
  function PeriodText(p: int): string {
    if p <= 4 then "Q" + IntToString(p) else "OT" + IntToString(p - 4)
  }

  lemma PeriodTextFacts(p: int)
    ensures ParseHead(PeriodText(p)) == Some(p)
    ensures forall i :: 0 <= i < |PeriodText(p)| ==> PeriodText(p)[i] != ' '
  {
    var n := if p <= 4 then p else p - 4;
    var digits := IntToString(n);
    ParseIntOfIntToString(n);
    forall i | 0 <= i < |digits| ensures digits[i] != ' ' {
      if n < 0 && i > 0 {
        assert digits[i] == NatToString(-n)[i - 1];
      }
    }
    if p <= 4 {
      assert PeriodText(p)[1..] == digits;
    } else {
      assert PeriodText(p)[..2] == "OT" && PeriodText(p)[2..] == digits;
    }
  }

  lemma ParseClockLabelOfParts(head: string, rest: string)
    requires forall i :: 0 <= i < |head| ==> head[i] != ' '
    requires rest == [] || rest[0] == ' '
    ensures ParseClockLabel(head + rest) ==
      if ParseHead(head).Some? && ParseRest(rest).Some?
      then Some(ClockLabel(ParseHead(head).value, ParseRest(rest).value)) else None
  {
    FirstSpaceOfPrefix(head, rest);
    assert (head + rest)[..|head|] == head;
    assert (head + rest)[|head|..] == rest;
  }

  /** Index of the first space in s, or |s| when there is none. */
  function FirstSpace(s: string): (k: nat)
    ensures k <= |s|
    ensures k < |s| ==> s[k] == ' '
    ensures forall i :: 0 <= i < k ==> s[i] != ' '
  {
    if s == [] then 0 else if s[0] == ' ' then 0 else 1 + FirstSpace(s[1..])
  }

  function ParseInt(s: string): Option<int> {
    if |s| >= 2 && s[0] == '-' && AllDigits(s[1..]) then Some(-(DigitsValue(s[1..]) as int))
    else if |s| >= 1 && AllDigits(s) then Some(DigitsValue(s))
    else None
  }

  lemma ParseIntOfIntToString(i: int)
    ensures ParseInt(IntToString(i)) == Some(i)
  {
    if i < 0 {
      ParseIntOfNegative(i);
    } else {
      ParseIntOfNatural(i);
    }
  }

  lemma ParseIntOfNegative(i: int)
    requires i < 0
    ensures ParseInt(IntToString(i)) == Some(i)
  {
    var m: nat := -i;
    var t := NatToString(m);
    assert IntToString(i) == "-" + t;
    DigitsValueOfNatToString(m);
    ParseIntOfMinus(t);
  }

  /** A minus sign before a non-empty digit string reads as the negated value. */
  lemma ParseIntOfMinus(t: string)
    requires |t| >= 1 && AllDigits(t)
    ensures ParseInt("-" + t) == Some(-(DigitsValue(t) as int))
  {
    assert ("-" + t)[1..] == t;
  }

  lemma ParseIntOfNatural(i: int)
    requires i >= 0
    ensures ParseInt(IntToString(i)) == Some(i)
  {
    var s := IntToString(i);
    assert s == NatToString(i);
    assert IsDigit(s[0]) && s[0] != '-';
    DigitsValueOfNatToString(i);
  }

  lemma {:induction false} FirstSpaceOfPrefix(a: string, b: string)
    requires forall i :: 0 <= i < |a| ==> a[i] != ' '
    requires b == [] || b[0] == ' '
    ensures FirstSpace(a + b) == |a|
  {
    if a != [] {
      assert (a + b)[1..] == a[1..] + b;
      FirstSpaceOfPrefix(a[1..], b);
    }
  }

  /** The label names its period and clock unambiguously: reading it back gives the
      period, and the clock exactly when the clock was shown. */
  lemma FormatClockRoundTrip(period: Option<int>, clock: Option<string>)
    requires PeriodTruthy(period)
    ensures ParseClockLabel(FormatClock(period, clock))
         == Some(ClockLabel(period.value, if Truthy(clock) then clock else None))
  {
    var q := PeriodText(period.value);
    PeriodTextFacts(period.value);
    if Truthy(clock) {
      var rest := ClockSeparator + clock.value;
      assert FormatClock(period, clock) == q + rest;
      ParseClockLabelOfParts(q, rest);
      assert rest[|ClockSeparator|..] == clock.value;
    } else {
      assert FormatClock(period, clock) == q + [];
      ParseClockLabelOfParts(q, []);
    }
  }

  // ------------------------------------------------------------- allGames

  /** `list || []`: a missing list is counted as empty. */
  function ListOrEmpty(l: Option<seq<Game>>): seq<Game> {
    l.GetOr([])
  }

  /** Every game of a snapshot in display order: live, then final, then upcoming;
      no games at all before the first snapshot. */
  function AllGames(scores: Option<Snapshot>): (r: seq<Game>)
    ensures scores.None? ==> r == []
    ensures scores.Some? ==>
      var l, f, u := ListOrEmpty(scores.value.live), ListOrEmpty(scores.value.final),
                     ListOrEmpty(scores.value.upcoming);
      && |r| == |l| + |f| + |u|
      && (forall i :: 0 <= i < |l| ==> r[i] == l[i])
      && (forall i :: 0 <= i < |f| ==> r[|l| + i] == f[i])
      && (forall i :: 0 <= i < |u| ==> r[|l| + |f| + i] == u[i])
  {
    match scores
    case None => []
    case Some(s) => ListOrEmpty(s.live) + ListOrEmpty(s.final) + ListOrEmpty(s.upcoming)
  }

  /** Rank of a status in the live / final / upcoming display precedence. */
  function StatusRank(st: Status): nat {
    match st
    case Live => 0
    case Final => 1
    case Upcoming => 2
    case OtherStatus(_) => 3
  }

  predicate AllHaveStatus(games: seq<Game>, st: Status) {
    forall i :: 0 <= i < |games| ==> games[i].status == st
  }

  lemma BlockRank(l: seq<Game>, f: seq<Game>, u: seq<Game>, i: nat)
    requires AllHaveStatus(l, Live) && AllHaveStatus(f, Final) && AllHaveStatus(u, Upcoming)
    requires i < |l| + |f| + |u|
    ensures StatusRank((l + f + u)[i].status) ==
      if i < |l| then 0 else if i < |l| + |f| then 1 else 2
  {
    if i < |l| {
      assert (l + f + u)[i] == l[i];
    } else if i < |l| + |f| {
      assert (l + f + u)[i] == f[i - |l|];
    } else {
      assert (l + f + u)[i] == u[i - |l| - |f|];
    }
  }

  /** When the server files every game under its own status, the display order puts
      every live game before every final game before every upcoming game. */
  lemma AllGamesOrderedByStatus(s: Snapshot, i: nat, j: nat)
    requires AllHaveStatus(ListOrEmpty(s.live), Live)
    requires AllHaveStatus(ListOrEmpty(s.final), Final)
    requires AllHaveStatus(ListOrEmpty(s.upcoming), Upcoming)
    requires i <= j < |AllGames(Some(s))|
    ensures StatusRank(AllGames(Some(s))[i].status) <= StatusRank(AllGames(Some(s))[j].status)
  {
    var l, f, u := ListOrEmpty(s.live), ListOrEmpty(s.final), ListOrEmpty(s.upcoming);
    assert AllGames(Some(s)) == l + f + u;
    BlockRank(l, f, u, i);
    BlockRank(l, f, u, j);
  }
}

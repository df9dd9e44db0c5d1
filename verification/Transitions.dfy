/** Choosing the transition handlers for a change of device state: wildcards, scores, and the best match. */
module Transitions {
  import opened Prelude
  import opened TransitionTable

  /** How well one state matches. */
  type Level = nat

  const NoMatch: Level := 0
  const CurrWildcardMatch: Level := 1
  const CurrStateOnlyMatch: Level := 2
  const CurrPrevStateMatch: Level := 3

  datatype Match = Match(admin: Level, oper: Level, conn: Level, transient: Level)

  const Nothing := Match(NoMatch, NoMatch, NoMatch, NoMatch)
  const Everything := Match(CurrPrevStateMatch, CurrPrevStateMatch, CurrPrevStateMatch, CurrPrevStateMatch)

  /** toInt: the levels in bits 8, 4, 2 and 0 of a 16-bit word. */
  function ToInt(m: Match): nat {
    m.transient * 256 + m.admin * 16 + m.oper * 4 + m.conn
  }

  predicate Levels(m: Match) {
    m.admin <= 3 && m.oper <= 3 && m.conn <= 3 && m.transient <= 3
  }

  /** For levels, shifting and or-ing 16-bit words is that sum. */
  lemma ShiftsDoNotOverlap(transient: bv16, admin: bv16, oper: bv16, conn: bv16)
    requires transient <= 3 && admin <= 3 && oper <= 3 && conn <= 3
    ensures (transient << 8) | (admin << 4) | (oper << 2) | conn == transient * 256 + admin * 16 + oper * 4 + conn
  {
  }

  /** Lexicographic order by transient, admin, oper and conn. */
  predicate Above(m: Match, n: Match) {
    || m.transient > n.transient
    || (m.transient == n.transient && m.admin > n.admin)
    || (m.transient == n.transient && m.admin == n.admin && m.oper > n.oper)
    || (m.transient == n.transient && m.admin == n.admin && m.oper == n.oper && m.conn > n.conn)
  }

  /** isBetterMatch */
  predicate IsBetterMatch(m: Match, n: Match) {
    ToInt(m) > ToInt(n)
  }

  lemma ScoresAreLexicographic(m: Match, n: Match)
    requires Levels(m) && Levels(n)
    ensures IsBetterMatch(m, n) <==> Above(m, n)
    ensures ToInt(m) == ToInt(n) <==> m == n
  {
  }

  // ---------------------------------------------------------------------------------------------
  // One entry

  function TransientLevel(p: Transient, c: Transient, t: Transition): Level {
    if c == t.current.transient && t.current.transient != AnyTransient then
      if p == t.previous.transient || t.previous.transient == AnyTransient then CurrPrevStateMatch else CurrStateOnlyMatch
    else if c == t.current.transient && t.current.transient == AnyTransient then
      if p == t.previous.transient || t.previous.transient == AnyTransient then CurrWildcardMatch else NoMatch
    else NoMatch
  }

  function AdminLevel(p: Admin, c: Admin, t: Transition): Level {
    if c == t.current.admin && t.current.admin != AdminUnknown then
      if p == t.previous.admin then CurrPrevStateMatch
      else if t.previous.admin == AdminUnknown then CurrStateOnlyMatch else NoMatch
    else if c == t.current.admin && t.current.admin == AdminUnknown then
      if p == t.previous.admin || t.previous.admin == AdminUnknown then CurrWildcardMatch else NoMatch
    else NoMatch
  }

  /** The entry leaves the admin state open on both sides, and the current one is known. */
  predicate AdminIsOpen(c: Admin, t: Transition) {
    c != t.current.admin && t.previous.admin == AdminUnknown && t.current.admin == AdminUnknown
  }

  function OperLevel(p: Oper, c: Oper, t: Transition): Level {
    if c == t.current.oper && t.previous.oper != OperUnknown then
      if p == t.previous.oper || t.previous.oper == OperUnknown then CurrPrevStateMatch else CurrStateOnlyMatch
    else if c == t.current.oper && t.previous.oper == OperUnknown then
      if p == t.previous.oper || t.previous.oper == OperUnknown then CurrWildcardMatch else NoMatch
    else NoMatch
  }

  function ConnLevel(p: Conn, c: Conn, t: Transition): Level {
    if c == t.current.conn && t.previous.conn != ConnUnknown then
      if p == t.previous.conn || t.previous.conn == ConnUnknown then CurrPrevStateMatch else CurrStateOnlyMatch
    else if c == t.current.conn && t.previous.conn == ConnUnknown then
      if p == t.previous.conn || t.previous.conn == ConnUnknown then CurrWildcardMatch else NoMatch
    else NoMatch
  }

  /** getHandler: None when the entry's handlers do not apply, otherwise how well they do. */
  function GetHandler(previous: DeviceState, current: DeviceState, t: Transition): (m: Option<Match>)
    ensures m.Some? ==> Levels(m.value) && m.value.transient != NoMatch
  {
    if previous == t.previous && current == t.current then Some(Everything)
    else
      var transient := TransientLevel(previous.transient, current.transient, t);
      var admin := AdminLevel(previous.admin, current.admin, t);
      if transient == NoMatch || (!AdminIsOpen(current.admin, t) && admin == NoMatch) then None
      else
        Some(Match(admin, OperLevel(previous.oper, current.oper, t), ConnLevel(previous.conn, current.conn, t), transient))
  }

  // ---------------------------------------------------------------------------------------------
  // The whole table

  /** A change of state of a device of a given type. */
  datatype Change = Change(deviceType: DeviceType, previous: DeviceState, current: DeviceState)

  function MatchOf(ch: Change, t: Transition): Option<Match> {
    if t.deviceType != ch.deviceType && t.deviceType != AnyType then None else GetHandler(ch.previous, ch.current, t)
  }

  /** The entry is for devices of this type, and its handlers apply. */
  predicate Applies(ch: Change, t: Transition) {
    MatchOf(ch, t).Some?
  }

  /** What matters about an entry for the choice: whether it is for the device's own type, and its score, zero if it does not apply. */
  datatype Rating = Rating(own: bool, score: nat)

  const FullScore: nat := ToInt(Everything)

  predicate IsOwnFull(r: Rating) {
    r.own && r.score == FullScore
  }

  function Rate(ch: Change, t: Transition): (r: Rating)
    ensures r.score > 0 <==> Applies(ch, t)
    ensures r.score <= FullScore
    ensures r.score == FullScore <==> MatchOf(ch, t) == Some(Everything)
  {
    var m := MatchOf(ch, t);
    Rating(t.deviceType == ch.deviceType, if m.Some? then ToInt(m.value) else 0)
  }

  ghost predicate RatedAt(ts: seq<Transition>, ch: Change, rs: seq<Rating>, i: nat)
    requires i < |ts| == |rs|
  {
    rs[i] == Rate(ch, ts[i])
  }

  /** The ratings of all entries. */
  ghost predicate Rated(ts: seq<Transition>, ch: Change, rs: seq<Rating>) {
    |rs| == |ts| && forall i {:trigger RatedAt(ts, ch, rs, i)} :: 0 <= i < |ts| ==> RatedAt(ts, ch, rs, i)
  }

  ghost function Ratings(ts: seq<Transition>, ch: Change): (rs: seq<Rating>)
    ensures Rated(ts, ch, rs)
    ensures forall i :: 0 <= i < |rs| ==> rs[i].score <= FullScore
  {
    seq(|ts|, i requires 0 <= i < |ts| => Rate(ch, ts[i]))
  }

  /**
   The choice among entries: the first full match for the device's own type; if there is none, the last
   full match for any type; if there is none, the first entry of maximal score; and none at all only if no
   entry applies.
   */
  ghost predicate IsChoice(rs: seq<Rating>, choice: Option<nat>) {
    match choice
    case None => forall i :: 0 <= i < |rs| ==> rs[i].score == 0
    case Some(k) =>
      && k < |rs| && rs[k].score > 0
      && if IsOwnFull(rs[k]) then forall i :: 0 <= i < k ==> !IsOwnFull(rs[i])
         else if rs[k].score == FullScore then
           && (forall i :: 0 <= i < |rs| ==> !IsOwnFull(rs[i]))
           && (forall i :: k < i < |rs| ==> rs[i].score != FullScore)
         else
           && (forall i :: 0 <= i < |rs| ==> rs[i].score <= rs[k].score)
           && (forall i :: 0 <= i < k ==> rs[i].score < rs[k].score)
  }

  /** Every choice has maximal score, and there is only one. */
  lemma ChoiceIsUniqueMaximum(rs: seq<Rating>, c1: Option<nat>, c2: Option<nat>)
    requires forall i :: 0 <= i < |rs| ==> rs[i].score <= FullScore
    requires IsChoice(rs, c1) && IsChoice(rs, c2)
    ensures c1 == c2
    ensures c1.Some? ==> forall i :: 0 <= i < |rs| ==> rs[i].score <= rs[c1.value].score
  {
    if c1.Some? {
      assert c2.Some? && rs[c2.value].score == rs[c1.value].score;
    }
  }

  /** What the loop knows after the first n entries, none of them a full match for the own type. */
  ghost predicate SoFar(rs: seq<Rating>, n: nat, best: nat, choice: Option<nat>)
    requires n <= |rs|
  {
    && (forall i :: 0 <= i < n ==> !IsOwnFull(rs[i]) && rs[i].score <= best)
    && match choice
       case None => best == 0
       case Some(k) =>
         && k < n && best == rs[k].score && best > 0
         && if best == FullScore then forall i :: k < i < n ==> rs[i].score != FullScore
            else forall i :: 0 <= i < k ==> rs[i].score < best
  }

  lemma LookAtNext(rs: seq<Rating>, n: nat, best: nat, choice: Option<nat>)
    requires n < |rs| && SoFar(rs, n, best, choice) && best <= FullScore && rs[n].score <= FullScore
    ensures rs[n].score == 0 ==> SoFar(rs, n + 1, best, choice)
    ensures IsOwnFull(rs[n]) ==> IsChoice(rs, Some(n))
    ensures !IsOwnFull(rs[n]) && (rs[n].score == FullScore || rs[n].score > best) ==> SoFar(rs, n + 1, rs[n].score, Some(n))
    ensures rs[n].score != FullScore && !(rs[n].score > best) ==> SoFar(rs, n + 1, best, choice)
  {
  }

  /** getTransitionHandler.  No change of state selects nothing. */
  method GetTransitionHandler(ts: seq<Transition>, ch: Change) returns (handlers: Option<seq<Handler>>, ghost choice: Option<nat>)
    requires ch.deviceType != AnyType
    ensures ch.previous == ch.current ==> handlers.None?
    ensures ch.previous != ch.current ==>
      && IsChoice(Ratings(ts, ch), choice)
      && handlers == if choice.Some? then Some(ts[choice.value].handlers) else None
  {
    handlers, choice := None, None;
    if ch.previous == ch.current {
      return;
    }
    var best := BestMatch(ts, ch, Ratings(ts, ch));
    if best.Some? {
      handlers, choice := Some(ts[best.value].handlers), best;
    }
  }

  /** The loop over the table: which entry the handlers come from.  Of the best match so far only the score matters. */
  method BestMatch(ts: seq<Transition>, ch: Change, ghost rs: seq<Rating>) returns (choice: Option<nat>)
    requires Rated(ts, ch, rs) && forall i :: 0 <= i < |rs| ==> rs[i].score <= FullScore
    ensures IsChoice(rs, choice)
  {
    choice := None;
    var best: nat := 0;
    for i := 0 to |ts|
      invariant best <= FullScore && SoFar(rs, i, best, choice)
    {
      LookAtNext(rs, i, best, choice);
      var verdict, score := Weigh(ts, ch, i, best, rs);
      if verdict == Final {
        return Some(i);
      }
      if verdict == Better {
        choice, best := Some(i), score;
      }
    }
    AllSeen(rs, best, choice);
  }

  lemma AllSeen(rs: seq<Rating>, best: nat, choice: Option<nat>)
    requires SoFar(rs, |rs|, best, choice)
    ensures IsChoice(rs, choice)
  {
  }

  datatype Verdict = Final | Better | Worse

  /** The body of the loop: whether the entry ends the search, is the best so far, or is passed over. */
  method Weigh(ts: seq<Transition>, ch: Change, i: nat, best: nat, ghost rs: seq<Rating>) returns (verdict: Verdict, score: nat)
    requires i < |ts| && Rated(ts, ch, rs)
    ensures verdict == Final <==> IsOwnFull(rs[i])
    ensures verdict == Better <==> !IsOwnFull(rs[i]) && rs[i].score > 0 && (rs[i].score == FullScore || rs[i].score > best)
    ensures verdict == Better ==> score == rs[i].score
  {
    var t := ts[i];
    assert RatedAt(ts, ch, rs, i);
    if t.deviceType != ch.deviceType && t.deviceType != AnyType {
      return Worse, 0;
    }
    var m := GetHandler(ch.previous, ch.current, t);
    if m.None? {
      return Worse, 0;
    }
    score := ToInt(m.value);
    if m.value == Everything && t.deviceType == ch.deviceType {
      return Final, score;
    }
    verdict := if m.value == Everything || score > best then Better else Worse;
  }

  /** ProcessTransition: the chosen handlers run in order until one fails, which is then the result. */
  method ProcessTransition(ts: seq<Transition>, ch: Change, fails: set<Handler>)
    returns (failed: Option<Handler>, ran: seq<Handler>, ghost choice: Option<nat>)
    requires ch.deviceType != AnyType
    ensures ch.previous == ch.current ==> ran == [] && failed.None?
    ensures ch.previous != ch.current ==>
      && IsChoice(Ratings(ts, ch), choice)
      && var chosen := if choice.Some? then ts[choice.value].handlers else [];
         && ran <= chosen
         && (failed.None? ==> ran == chosen && forall h <- chosen :: h !in fails)
         && (failed.Some? ==> failed.value in fails && ran != [] && ran[|ran| - 1] == failed.value
                              && forall h <- ran[..|ran| - 1] :: h !in fails)
  {
    var found;
    found, choice := GetTransitionHandler(ts, ch);
    failed, ran := None, [];
    if found.None? {
      return;
    }
    var handlers := found.value;
    for i := 0 to |handlers|
      invariant ran == handlers[..i] && forall h <- ran :: h !in fails
    {
      ran := ran + [handlers[i]];
      if handlers[i] in fails {
        assert ran[..i] == handlers[..i];
        return Some(handlers[i]), ran, choice;
      }
    }
    assert handlers[..|handlers|] == handlers;
  }
}

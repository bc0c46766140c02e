/** NPCI execution bands, contact hours, and the rolling contact budget. */
module Windows {
  import opened Sequences
  import opened Models
  import opened Policies

  // -- execution bands -----------------------------------------------------

  /** Whether the autopay bands govern this rail. An unrecognised one is taken as governed. */
  predicate Governed(rail: Rail) {
    rail !in {Card, Emandate, Nach, Netbanking, Wallet}
  }

  /** The first listed band holding this time of day. */
  function BandAt(bands: seq<Band>, tod: Duration): (r: Option<Band>)
    ensures r.None? <==> forall i :: 0 <= i < |bands| ==> !Within(bands[i], tod)
    ensures r.Some? ==> r.value in bands && Within(r.value, tod)
  {
    if bands == [] then None
    else if Within(bands[0], tod) then Some(bands[0])
    else BandAt(bands[1..], tod)
  }

  predicate ExecutionAllowed(p: Policy, t: Instant, rail: Rail) {
    !Governed(rail) || BandAt(p.bands, TimeOfDay(t)).None?
  }

  // The band ends on a whole minute, so there are no seconds to cut off.
  function NextExecution(p: Policy, t: Instant, rail: Rail): Instant {
    if ExecutionAllowed(p, t, rail) then t
    else At(DateOf(t), BandAt(p.bands, TimeOfDay(t)).value.end)
  }

  /** The methods, by name, that are not routed through autopay and no band applies to. */
  predicate Unbanded(methodName: Option<string>) {
    methodName.Some? && Lower(methodName.value) in {"card", "emandate", "nach", "netbanking", "wallet"}
  }

  /** The time of day lies in none of the policy's bands. */
  predicate InNoBand(p: Policy, t: Instant) {
    forall i :: 0 <= i < |p.bands| ==> !(p.bands[i].start <= t % 86_400_000_000 < p.bands[i].end)
  }

  /** When a debit on a method of this name may run. */
  predicate BandsPermit(p: Policy, methodName: Option<string>, t: Instant) {
    Unbanded(methodName) || InNoBand(p, t)
  }

  /** What the rails decide is what the names do: no band for the five, every band for anything else. */
  lemma BandsGovernByName(p: Policy, methodName: Option<string>, t: Instant)
    ensures ExecutionAllowed(p, t, RailOf(methodName)) <==> BandsPermit(p, methodName, t)
  {
    assert Lower("") == "";
    assert forall i :: 0 <= i < |p.bands| ==>
      (Within(p.bands[i], TimeOfDay(t)) <==> p.bands[i].start <= t % 86_400_000_000 < p.bands[i].end);
  }

  /** Spelled out: UPI and an absent method are banded, and the five others are not. */
  lemma TheNames(p: Policy, t: Instant)
    ensures forall m :: m in {None, Some("upi"), Some("UPI"), Some(""), Some("bank")} ==>
              (ExecutionAllowed(p, t, RailOf(m)) <==> InNoBand(p, t))
    ensures forall m :: m in {Some("card"), Some("emandate"), Some("nach"), Some("netbanking"), Some("wallet")} ==>
              ExecutionAllowed(p, t, RailOf(m))
  {
    forall m | m in {None, Some("upi"), Some("UPI"), Some(""), Some("bank")}
      ensures ExecutionAllowed(p, t, RailOf(m)) <==> InNoBand(p, t)
    {
      BandsGovernByName(p, m, t);
      NotUnbanded(m);
    }
    forall m | m in {Some("card"), Some("emandate"), Some("nach"), Some("netbanking"), Some("wallet")}
      ensures ExecutionAllowed(p, t, RailOf(m))
    {
      BandsGovernByName(p, m, t);
      assert Lower(m.value) == m.value;
    }
  }

  lemma NotUnbanded(m: Option<string>)
    requires m in {None, Some("upi"), Some("UPI"), Some(""), Some("bank")}
    ensures !Unbanded(m)
  {
    if m.Some? {
      var low := Lower(m.value);
      assert |low| == |m.value|;
      assert m == Some("upi") || m == Some("UPI") ==> low == "upi";
      assert m == Some("bank") ==> low == "bank";
      assert "bank"[0] != "card"[0] && "bank"[0] != "nach"[0];
    }
  }

  /** An instant between two of one day is on that day, at a time of day between theirs. */
  lemma SameDay(t: Instant, u: Instant, n: Instant)
    requires t <= u <= n && DateOf(t) == DateOf(n)
    ensures DateOf(u) == DateOf(t) && TimeOfDay(t) <= TimeOfDay(u) <= TimeOfDay(n)
  {
  }

  /** Extensive, legal, least, and therefore idempotent. */
  lemma NextExecutionIsLeast(p: Policy, t: Instant, rail: Rail)
    ensures var n := NextExecution(p, t, rail);
            && t <= n
            && ExecutionAllowed(p, n, rail)
            && (forall u :: t <= u < n ==> !ExecutionAllowed(p, u, rail))
            && NextExecution(p, n, rail) == n
  {
    if !ExecutionAllowed(p, t, rail) {
      var b := BandAt(p.bands, TimeOfDay(t)).value;
      var k :| 0 <= k < |p.bands| && p.bands[k] == b;
      var n := NextExecution(p, t, rail);
      Calendar(DateOf(t), b.end);
      Recompose(t);
      assert forall i :: 0 <= i < |p.bands| ==> !Within(p.bands[i], p.bands[k].end);
      forall u | t <= u < n
        ensures !ExecutionAllowed(p, u, rail)
      {
        SameDay(t, u, n);
        assert Within(p.bands[k], TimeOfDay(u));
      }
    }
  }

  // -- contact hours -------------------------------------------------------

  predicate ContactAllowed(p: Policy, t: Instant) {
    p.contactOpen <= TimeOfDay(t) < p.contactClose
  }

  function NextContact(p: Policy, t: Instant): Instant {
    if ContactAllowed(p, t) then t
    else At(if TimeOfDay(t) >= p.contactClose then DateOf(t) + 1 else DateOf(t), p.contactOpen)
  }

  lemma NextContactIsLeast(p: Policy, t: Instant)
    ensures var n := NextContact(p, t);
            && t <= n
            && ContactAllowed(p, n)
            && p.contactOpen <= n % 86_400_000_000 < p.contactClose
            && (forall u :: t <= u < n ==> !ContactAllowed(p, u))
            && (forall u :: t <= u < n ==> !(p.contactOpen <= u % 86_400_000_000 < p.contactClose))
            && NextContact(p, n) == n
  {
    Recompose(t);
    Calendar(DateOf(t), p.contactOpen);
    Calendar(DateOf(t) + 1, p.contactOpen);
    var n := NextContact(p, t);
    forall u | t <= u < n
      ensures !ContactAllowed(p, u)
    {
      Recompose(u);
    }
  }

  /** A later question never has an earlier answer. */
  lemma NextContactMonotone(p: Policy, t: Instant, u: Instant)
    requires t <= u
    ensures NextContact(p, t) <= NextContact(p, u)
  {
    NextContactIsLeast(p, t);
    NextContactIsLeast(p, u);
    assert ContactAllowed(p, NextContact(p, u));
  }

  // -- the contact budget --------------------------------------------------

  predicate Sorted(s: seq<Instant>) {
    forall i, j :: 0 <= i < j < |s| ==> s[i] <= s[j]
  }

  /** The entries after `cutoff`, in the order given. */
  function Inside(recent: seq<Instant>, cutoff: Instant): seq<Instant> {
    if recent == [] then []
    else
      var front := Inside(recent[..|recent| - 1], cutoff);
      if recent[|recent| - 1] > cutoff then front + [recent[|recent| - 1]] else front
  }

  function After(cutoff: Instant): Instant -> bool {
    t => t > cutoff
  }

  datatype Budget = Budget(allowed: bool, used: nat, freeAt: Option<Instant>)

  function ContactBudget(p: Policy, recent: seq<Instant>, now: Instant): Budget {
    var inside := Inside(recent, now - p.contactWindow);
    if |inside| < p.maxPerWindow then Budget(true, |inside|, None)
    else Budget(false, |inside|, Some(NextContact(p, inside[0] + p.contactWindow)))
  }

  lemma {:induction false} InsideCounts(recent: seq<Instant>, cutoff: Instant)
    ensures |Inside(recent, cutoff)| == Count(recent, After(cutoff))
    ensures forall i :: 0 <= i < |Inside(recent, cutoff)| ==> Inside(recent, cutoff)[i] > cutoff
    decreases |recent|
  {
    if recent != [] {
      InsideCounts(recent[..|recent| - 1], cutoff);
    }
  }

  /** Of a sorted history, the entries after a cutoff are the tail from the first of them. */
  lemma {:induction false} InsideIsSuffix(recent: seq<Instant>, cutoff: Instant) returns (k: nat)
    requires Sorted(recent)
    ensures k <= |recent| && Inside(recent, cutoff) == recent[k..]
    ensures forall i :: 0 <= i < k ==> recent[i] <= cutoff
    ensures forall i :: k <= i < |recent| ==> recent[i] > cutoff
    decreases |recent|
  {
    if recent == [] {
      k := 0;
    } else {
      var n := |recent| - 1;
      var front := recent[..n];
      k := InsideIsSuffix(front, cutoff);
      assert forall i :: k <= i < n ==> front[i] == recent[i];
      if recent[n] > cutoff {
        assert recent[k..] == front[k..] + [recent[n]];
      } else {
        assert k == n;
        k := n + 1;
        assert recent[k..] == [];
      }
    }
  }

  /** Fewer than `limit` entries lie after a cutoff exactly when the one `limit` from the end does not. */
  lemma TailCount(recent: seq<Instant>, cutoff: Instant, limit: nat)
    requires Sorted(recent) && limit >= 1
    ensures |Inside(recent, cutoff)| < limit <==>
            |recent| < limit || recent[|recent| - limit] <= cutoff
  {
    var k := InsideIsSuffix(recent, cutoff);
  }

  /** Whether one more message may go out at `u`, judged on the history `recent` as it stands. */
  predicate MayMessage(p: Policy, recent: seq<Instant>, u: Instant) {
    ContactAllowed(p, u) && ContactBudget(p, recent, u).allowed
  }

  /** The place in `recent` whose ageing out reopens a spent budget. */
  function Pivot(p: Policy, recent: seq<Instant>): Instant
    requires |recent| >= p.maxPerWindow
  {
    recent[|recent| - p.maxPerWindow]
  }

  /** A spent budget reopens exactly when the entry `limit` from the end ages out. */
  lemma BudgetFreesWhen(p: Policy, recent: seq<Instant>, now: Instant, u: Instant)
    requires Sorted(recent) && !ContactBudget(p, recent, now).allowed
    ensures |recent| >= p.maxPerWindow && now < Pivot(p, recent) + p.contactWindow
    ensures ContactBudget(p, recent, u).allowed <==> u >= Pivot(p, recent) + p.contactWindow
  {
    TailCount(recent, u - p.contactWindow, p.maxPerWindow);
    TailCount(recent, now - p.contactWindow, p.maxPerWindow);
  }

  /** A refused message is told the time at which the oldest entry in the window ages out. */
  lemma RefusalNamesTheOldest(p: Policy, recent: seq<Instant>, now: Instant)
    requires Sorted(recent) && !ContactBudget(p, recent, now).allowed
    ensures |recent| >= p.maxPerWindow
    ensures var b := ContactBudget(p, recent, now);
            && p.maxPerWindow <= b.used <= |recent|
            && b.freeAt == Some(NextContact(p, recent[|recent| - b.used] + p.contactWindow))
            && now < recent[|recent| - b.used] + p.contactWindow <= Pivot(p, recent) + p.contactWindow
  {
    var k := InsideIsSuffix(recent, now - p.contactWindow);
    assert Inside(recent, now - p.contactWindow)[0] == recent[k];
  }

  /** The instant the oldest message of a spent window ages out: the first of those that must. */
  function OldestFrees(p: Policy, recent: seq<Instant>, now: Instant): Instant
    requires Sorted(recent) && !ContactBudget(p, recent, now).allowed
  {
    RefusalNamesTheOldest(p, recent, now);
    recent[|recent| - ContactBudget(p, recent, now).used] + p.contactWindow
  }

  /** Nobody may be contacted at any instant from one to just before the other. */
  predicate NoHoursBetween(p: Policy, from: Instant, to: Instant) {
    forall u :: from <= u < to ==> !ContactAllowed(p, u)
  }

  /** Which one question about contact hours settles. */
  lemma OneQuestionSettlesHours(p: Policy, from: Instant, to: Instant)
    ensures NoHoursBetween(p, from, to) <==> to <= NextContact(p, from)
  {
    NextContactIsLeast(p, from);
    if NextContact(p, from) < to {
      assert ContactAllowed(p, NextContact(p, from));
    }
  }

  /**
   * The deferral time. The earliest instant after `now` at which the hours and the budget both
   * allow a message is the contact time at or after the pivot ages out. The time a refused
   * message is given never comes after it and is always after `now` and inside hours; and it is
   * exactly it, and allows a message, if and only if no contact hour passes between the oldest
   * message in the window ageing out and the pivot doing so.
   */
  lemma DeferralIsExact(p: Policy, recent: seq<Instant>, now: Instant)
    requires Sorted(recent) && !ContactBudget(p, recent, now).allowed
    ensures |recent| >= p.maxPerWindow && ContactBudget(p, recent, now).freeAt.Some?
    ensures var b := ContactBudget(p, recent, now);
            var frees := Pivot(p, recent) + p.contactWindow;
            var least := NextContact(p, frees);
            && now < b.freeAt.value <= least
            && ContactAllowed(p, b.freeAt.value)
            && MayMessage(p, recent, least)
            && (forall u :: now < u < least ==> !MayMessage(p, recent, u))
            && (b.freeAt.value == least <==> NoHoursBetween(p, OldestFrees(p, recent, now), frees))
            && (MayMessage(p, recent, b.freeAt.value) <==> NoHoursBetween(p, OldestFrees(p, recent, now), frees))
  {
    RefusalNamesTheOldest(p, recent, now);
    var b := ContactBudget(p, recent, now);
    var oldest := OldestFrees(p, recent, now);
    var frees := Pivot(p, recent) + p.contactWindow;
    var least := NextContact(p, frees);
    NextContactIsLeast(p, oldest);
    NextContactIsLeast(p, frees);
    NextContactMonotone(p, oldest, frees);
    OneQuestionSettlesHours(p, oldest, frees);
    BudgetFreesWhen(p, recent, now, least);
    BudgetFreesWhen(p, recent, now, b.freeAt.value);
    forall u | now < u < least
      ensures !MayMessage(p, recent, u)
    {
      BudgetFreesWhen(p, recent, now, u);
    }
  }

  /** A budget spent to the limit and no further always meets the condition. */
  lemma SpentToTheLimitIsExact(p: Policy, recent: seq<Instant>, now: Instant)
    requires Sorted(recent) && !ContactBudget(p, recent, now).allowed
    requires ContactBudget(p, recent, now).used == p.maxPerWindow
    ensures |recent| >= p.maxPerWindow
    ensures NoHoursBetween(p, OldestFrees(p, recent, now), Pivot(p, recent) + p.contactWindow)
  {
    RefusalNamesTheOldest(p, recent, now);
  }

  /** The same deferral when more than the limit has gone out can come too early. */
  lemma DeferralCanBeEarly() returns (p: Policy, recent: seq<Instant>, now: Instant)
    ensures Sorted(recent) && !ContactBudget(p, recent, now).allowed
    ensures !MayMessage(p, recent, ContactBudget(p, recent, now).freeAt.value)
  {
    p := SHIPPED;
    var first := At(0, 9 * HOUR);
    var second := At(1, 9 * HOUR);
    recent, now := [first, second], At(2, 9 * HOUR);
    assert recent[..1] == [first] && [first][..0] == [];
    assert Inside([first], now - p.contactWindow) == [first];
    assert Inside(recent, now - p.contactWindow) == [first, second];
    var free := first + p.contactWindow;
    assert Inside([first], free - p.contactWindow) == [];
    assert Inside(recent, free - p.contactWindow) == [second];
    Calendar(14, 9 * HOUR);
  }
}

/** Failure classification, and how much confidence the documentation lets it claim. */
module Taxonomies {
  import opened Sequences
  import opened Models
  import opened Policies

  // The wildcard in a key.
  const ANY := "*"

  datatype Rule = Rule(klass: DiagnosisClass, directness: real)

  datatype Key = Key(methodName: string, reason: string, source: string, step: string)

  /** How many root causes a method's documentation lists for one reason. */
  datatype Documented = Documented(scope: string, reason: string, causes: nat)

  datatype RawTaxonomy = RawTaxonomy(documented: seq<Documented>, table: map<Key, Rule>)

  predicate Sound(tx: RawTaxonomy) {
    && (forall i :: 0 <= i < |tx.documented| ==> tx.documented[i].causes >= 1)
    && (forall k :: k in tx.table ==> 0.0 <= tx.table[k].directness <= 1.0)
  }

  type Taxonomy = tx: RawTaxonomy | Sound(tx) witness RawTaxonomy([], map[])

  /** Python's `value or default` on an optional string: the empty string is absent too. */
  function Or(value: Option<string>, default: string): string {
    if value.None? || value.value == "" then default else value.value
  }

  // -- documented ambiguity ------------------------------------------------

  function CausesIn(rows: seq<Documented>, scope: string, reason: string): Option<nat> {
    if rows == [] then None
    else if rows[0].scope == scope && rows[0].reason == reason then Some(rows[0].causes)
    else CausesIn(rows[1..], scope, reason)
  }

  /** The largest count any real method documents for the reason, and zero when none does. */
  function WorstCount(rows: seq<Documented>, reason: string): nat {
    if rows == [] then 0
    else
      var rest := WorstCount(rows[1..], reason);
      if rows[0].scope != "any" && rows[0].reason == reason then Max(rows[0].causes, rest) else rest
  }

  function DocumentedCauses(tx: Taxonomy, methodName: Option<string>, reason: string): nat {
    var own := CausesIn(tx.documented, Or(methodName, ""), reason);
    var worst := WorstCount(tx.documented, reason);
    if own.Some? then own.value
    else if worst > 0 then worst
    else CausesIn(tx.documented, "any", reason).GetOr(1)
  }

  lemma {:induction false} OwnAtMostWorst(rows: seq<Documented>, scope: string, reason: string)
    requires scope != "any" && CausesIn(rows, scope, reason).Some?
    ensures CausesIn(rows, scope, reason).value <= WorstCount(rows, reason)
  {
    if !(rows[0].scope == scope && rows[0].reason == reason) {
      OwnAtMostWorst(rows[1..], scope, reason);
    }
  }

  lemma {:induction false} CausesArePositive(rows: seq<Documented>, scope: string, reason: string)
    requires forall i :: 0 <= i < |rows| ==> rows[i].causes >= 1
    ensures CausesIn(rows, scope, reason).Some? ==> CausesIn(rows, scope, reason).value >= 1
  {
    if rows != [] {
      CausesArePositive(rows[1..], scope, reason);
    }
  }

  // -- lookup --------------------------------------------------------------

  datatype Match = Match(rule: Rule, key: Option<Key>, confidence: real)

  const UNMATCHED: Match := Match(Rule(Unknown, 0.0), None, 0.0)

  predicate MerchantSource(source: Option<string>) {
    source == Some("business")
  }

  function Candidates(
    methodName: Option<string>, reason: string, source: Option<string>, step: Option<string>): seq<Key>
  {
    [ Key(Or(methodName, ANY), reason, Or(source, ANY), Or(step, ANY)),
      Key(Or(methodName, ANY), reason, Or(source, ANY), ANY),
      Key(ANY, reason, Or(source, ANY), Or(step, ANY)),
      Key(ANY, reason, Or(source, ANY), ANY),
      Key(ANY, reason, ANY, ANY) ]
  }

  function FirstIn(keys: seq<Key>, table: map<Key, Rule>): (r: Option<Key>)
    ensures r.Some? ==> r.value in table && r.value in keys
    ensures r.None? ==> forall k :: k in keys ==> k !in table
  {
    if keys == [] then None
    else if keys[0] in table then Some(keys[0])
    else FirstIn(keys[1..], table)
  }

  /** The nearest integer, ties to even. */
  function Nearest(z: real): int {
    var low := z.Floor;
    var part := z - low as real;
    if part < 0.5 then low
    else if part > 0.5 then low + 1
    else if low % 2 == 0 then low else low + 1
  }

  function RoundHundredths(x: real): real {
    Nearest(x * 100.0) as real / 100.0
  }

  function Cap(causes: nat, source: string): real {
    if causes <= 1 || source != ANY then 1.0 else 1.0 / causes as real
  }

  function Share(cap: real, directness: real): real {
    cap * directness
  }

  /** The product of documented ambiguity and directness, before rounding. */
  function RawConfidence(tx: Taxonomy, methodName: Option<string>, key: Key): real
    requires key in tx.table
  {
    Share(Cap(DocumentedCauses(tx, methodName, key.reason), key.source), tx.table[key].directness)
  }

  function Lookup(
    tx: Taxonomy, methodName: Option<string>, reason: Option<string>,
    source: Option<string>, step: Option<string>): Match
  {
    if Or(reason, "") == "" then UNMATCHED
    else if MerchantSource(source) then
      Match(Rule(Unknown, 0.0), Some(Key(ANY, reason.value, "business", ANY)), 0.0)
    else
      var found := FirstIn(Candidates(methodName, reason.value, source, step), tx.table);
      if found.None? then UNMATCHED
      else Match(tx.table[found.value], found, RoundHundredths(RawConfidence(tx, methodName, found.value)))
  }

  function Diagnose(tx: Taxonomy, s: FailureSignal): Diagnosis {
    var m := Lookup(tx, s.methodName, s.errorReason, s.errorSource, s.errorStep);
    Diagnosis(m.rule.klass, m.confidence)
  }

  function AuthorityOf(p: Policy, d: Diagnosis): Authority {
    if d.confidence >= p.autoExecute then AutoExecute
    else if d.confidence >= p.sampledQa then SampledQa
    else HoldForHuman
  }

  /** Reasons after which a capture may still follow, asked only when there is an order to check. */
  predicate NeedsVerification(s: FailureSignal) {
    Or(s.orderId, "") != "" && s.errorReason.Some? &&
    s.errorReason.value in
      {"payment_timed_out", "gateway_technical_error", "payment_collect_request_expired"}
  }

  // -- knowing less never buys autonomy --------------------------------------

  lemma NearestIsMonotone(y: real, z: real)
    requires y <= z
    ensures Nearest(y) <= Nearest(z)
    ensures -0.5 <= Nearest(y) as real - y <= 0.5
  {
    assert y.Floor <= z.Floor;
  }

  lemma RoundingIsMonotone(x: real, y: real)
    requires x <= y
    ensures RoundHundredths(x) <= RoundHundredths(y)
    ensures -0.005 <= RoundHundredths(x) - x <= 0.005
  {
    NearestIsMonotone(x * 100.0, y * 100.0);
  }

  predicate WildcardMethods(tx: Taxonomy) {
    forall k :: k in tx.table ==> k.methodName == ANY
  }

  /** When every key wildcards the method, the method does not choose the rule. */
  lemma MethodDoesNotChooseTheRule(
    tx: Taxonomy, m: Option<string>, reason: string, source: Option<string>, step: Option<string>)
    requires WildcardMethods(tx)
    ensures FirstIn(Candidates(m, reason, source, step), tx.table)
            == FirstIn(Candidates(None, reason, source, step), tx.table)
  {
    var a := Candidates(m, reason, source, step);
    var b := Candidates(None, reason, source, step);
    assert a[1..] == [a[1], a[2], a[3], a[4]] && b[1..] == [b[1], b[2], b[3], b[4]];
    assert a[1..][1..] == [a[2], a[3], a[4]] && b[1..][1..] == [b[2], b[3], b[4]];
    assert a[2] == b[2] && a[3] == b[3] && a[4] == b[4] && b[0] == b[2] && b[1] == b[3];
    var tail := [a[2], a[3], a[4]];
    assert tail[1..] == [a[3], a[4]];
    assert a[0] in tx.table ==> a[0] == b[0];
    assert a[1] in tx.table ==> a[1] == b[1];
    assert FirstIn(a[1..][1..], tx.table) == FirstIn(b[1..][1..], tx.table);
  }

  /**
   * Of any two methods, the one whose reason has at least as many documented causes never scores
   * above the other, and so never earns more autonomy.
   */
  lemma KnowingLessNeverBuysAutonomy(
    p: Policy, tx: Taxonomy, known: Option<string>, less: Option<string>,
    reason: Option<string>, source: Option<string>, step: Option<string>)
    requires WildcardMethods(tx)
    requires DocumentedCauses(tx, known, Or(reason, "")) <= DocumentedCauses(tx, less, Or(reason, ""))
    ensures var a := Lookup(tx, less, reason, source, step);
            var b := Lookup(tx, known, reason, source, step);
            && a.rule == b.rule
            && a.confidence <= b.confidence
            && Rank(AuthorityOf(p, Diagnosis(a.rule.klass, a.confidence)))
               <= Rank(AuthorityOf(p, Diagnosis(b.rule.klass, b.confidence)))
  {
    hide DocumentedCauses, Candidates, FirstIn, RawConfidence, RoundHundredths, AuthorityOf;
    HigherScoresRankHigher(
      p, Lookup(tx, less, reason, source, step), Lookup(tx, known, reason, source, step));
    if Or(reason, "") != "" && !MerchantSource(source) {
      var r := reason.value;
      MethodDoesNotChooseTheRule(tx, known, r, source, step);
      MethodDoesNotChooseTheRule(tx, less, r, source, step);
      var found := FirstIn(Candidates(None, r, source, step), tx.table);
      FoundKeepsReason(tx, None, r, source, step);
      if found.Some? {
        ScoresWithCauses(tx, known, less, found.value);
      }
    }
  }

  /**
   * So a method that documents nothing for the reason, or is absent, never outscores one that does,
   * through the whole lookup, but for that one exception.
   */
  lemma TheUndocumentedNeverOutscore(
    p: Policy, tx: Taxonomy, known: Option<string>, less: Option<string>,
    reason: Option<string>, source: Option<string>, step: Option<string>)
    requires WildcardMethods(tx)
    requires var r := Or(reason, "");
             && CausesIn(tx.documented, Or(known, ""), r).Some?
             && CausesIn(tx.documented, Or(less, ""), r).None?
             && (|| Or(known, "") != "any"
                 || WorstCount(tx.documented, r) == 0
                 || CausesIn(tx.documented, "any", r).value <= WorstCount(tx.documented, r))
    ensures var a := Lookup(tx, less, reason, source, step);
            var b := Lookup(tx, known, reason, source, step);
            && a.rule == b.rule
            && a.confidence <= b.confidence
            && Rank(AuthorityOf(p, Diagnosis(a.rule.klass, a.confidence)))
               <= Rank(AuthorityOf(p, Diagnosis(b.rule.klass, b.confidence)))
  {
    hide DocumentedCauses, Lookup;
    TheUndocumentedKnowLess(tx, known, less, Or(reason, ""));
    KnowingLessNeverBuysAutonomy(p, tx, known, less, reason, source, step);
  }

  lemma HigherScoresRankHigher(p: Policy, a: Match, b: Match)
    ensures a.confidence <= b.confidence ==>
              Rank(AuthorityOf(p, Diagnosis(a.rule.klass, a.confidence)))
              <= Rank(AuthorityOf(p, Diagnosis(b.rule.klass, b.confidence)))
  {
  }

  lemma SomeCause(tx: Taxonomy, m: Option<string>, r: string)
    ensures DocumentedCauses(tx, m, r) >= 1
  {
    CausesArePositive(tx.documented, Or(m, ""), r);
    CausesArePositive(tx.documented, "any", r);
  }

  /** Nothing weaker would do: on a match that resolves nothing the order of causes is the order of scores. */
  lemma TheOrderOfCausesIsExact(tx: Taxonomy, known: Option<string>, less: Option<string>, key: Key)
    requires key in tx.table && key.source == ANY && tx.table[key].directness > 0.0
    ensures RawConfidence(tx, less, key) <= RawConfidence(tx, known, key)
            <==> DocumentedCauses(tx, known, key.reason) <= DocumentedCauses(tx, less, key.reason)
  {
    hide DocumentedCauses, Cap, Share;
    SomeCause(tx, known, key.reason);
    SomeCause(tx, less, key.reason);
    var more, fewer := DocumentedCauses(tx, less, key.reason), DocumentedCauses(tx, known, key.reason);
    if fewer <= more {
      CapShrinks(fewer, more, key.source);
      ShareGrows(Cap(more, key.source), Cap(fewer, key.source), tx.table[key].directness);
    } else {
      CapShrinksStrictly(more, fewer, key.source);
      ShareGrows(Cap(fewer, key.source), Cap(more, key.source), tx.table[key].directness);
    }
  }

  lemma CapShrinksStrictly(fewer: nat, more: nat, source: string)
    requires 1 <= fewer < more && source == ANY
    ensures Cap(more, source) < Cap(fewer, source)
  {
    InverseShrinks(fewer as real, more as real);
    assert Cap(more, source) == 1.0 / more as real;
    assert Cap(fewer, source) == 1.0 / fewer as real;
  }

  lemma InverseShrinks(a: real, b: real)
    requires 0.0 < a < b
    ensures 1.0 / b < 1.0 / a
  {
    var x, y := 1.0 / b, 1.0 / a;
    assert x * b == 1.0 && y * a == 1.0;
    assert (y - x) * b == y * (b - a);
  }

  lemma ShareGrows(a: real, b: real, x: real)
    requires a <= b && 0.0 < x
    ensures Share(a, x) <= Share(b, x)
    ensures a < b ==> Share(a, x) < Share(b, x)
  {
    assert a * x <= b * x;
    if a < b {
      assert (b - a) * x > 0.0;
    }
  }

  /**
   * Between a method documented for the reason and one that is not, or is absent, the second is
   * held to at least as many causes, except exactly when the first is spelled like the list meant
   * for every method and that list is longer than any method's own.
   */
  lemma TheUndocumentedKnowLess(tx: Taxonomy, known: Option<string>, less: Option<string>, r: string)
    requires CausesIn(tx.documented, Or(known, ""), r).Some? && CausesIn(tx.documented, Or(less, ""), r).None?
    ensures DocumentedCauses(tx, known, r) <= DocumentedCauses(tx, less, r)
            <==>
            (|| Or(known, "") != "any"
             || WorstCount(tx.documented, r) == 0
             || CausesIn(tx.documented, "any", r).value <= WorstCount(tx.documented, r))
  {
    if Or(known, "") != "any" {
      LessKnownMoreCauses(tx, known, less, r);
    }
  }

  /** Without a table of its own a method is held to the worst documented count. */
  lemma LessKnownMoreCauses(tx: Taxonomy, known: Option<string>, less: Option<string>, r: string)
    requires Or(known, "") != "any" && CausesIn(tx.documented, Or(known, ""), r).Some?
    requires CausesIn(tx.documented, Or(less, ""), r).None?
    ensures 1 <= DocumentedCauses(tx, known, r) <= DocumentedCauses(tx, less, r)
  {
    OwnAtMostWorst(tx.documented, Or(known, ""), r);
    CausesArePositive(tx.documented, Or(known, ""), r);
  }

  lemma ScoresWithCauses(tx: Taxonomy, known: Option<string>, less: Option<string>, key: Key)
    requires key in tx.table
    requires DocumentedCauses(tx, known, key.reason) <= DocumentedCauses(tx, less, key.reason)
    ensures RoundHundredths(RawConfidence(tx, less, key)) <= RoundHundredths(RawConfidence(tx, known, key))
  {
    SomeCause(tx, known, key.reason);
    var more, fewer := DocumentedCauses(tx, less, key.reason), DocumentedCauses(tx, known, key.reason);
    CapShrinks(fewer, more, key.source);
    Scale(Cap(more, key.source), Cap(fewer, key.source), tx.table[key].directness);
  }

  /** The candidates keep the reason they were built for. */
  lemma FoundKeepsReason(
    tx: Taxonomy, m: Option<string>, reason: string, source: Option<string>, step: Option<string>)
    ensures var found := FirstIn(Candidates(m, reason, source, step), tx.table);
            found.Some? ==> found.value.reason == reason
  {
  }

  lemma CapShrinks(fewer: nat, more: nat, source: string)
    requires 1 <= fewer <= more
    ensures 0.0 < Cap(more, source) <= Cap(fewer, source) <= 1.0
    ensures source == ANY ==> Cap(more, source) == 1.0 / more as real
  {
  }

  lemma Scale(a: real, b: real, x: real)
    requires a <= b && 0.0 <= x
    ensures RoundHundredths(Share(a, x)) <= RoundHundredths(Share(b, x))
  {
    assert a * x <= b * x;
    RoundingIsMonotone(Share(a, x), Share(b, x));
  }

  lemma Fraction(a: real, x: real)
    requires 0.0 <= a && 0.0 <= x <= 1.0
    ensures 0.0 <= Share(a, x) <= a
    ensures RoundHundredths(Share(a, x)) <= a + 0.005
  {
    assert 0.0 <= a * x <= a;
    RoundingIsMonotone(Share(a, x), Share(a, x));
  }

  /** The exception: a method spelled like the agnostic list outscores a documented one and no method at all. */
  lemma TheAgnosticListIsNotAMethod() returns (tx: Taxonomy, reason: string)
    ensures WildcardMethods(tx)
    ensures CausesIn(tx.documented, "upi", reason) == Some(2)
    ensures var any := Lookup(tx, Some("any"), Some(reason), None, None).confidence;
            && any > Lookup(tx, Some("upi"), Some(reason), None, None).confidence
            && any > Lookup(tx, None, Some(reason), None, None).confidence
  {
    reason := "r";
    var key := Key(ANY, reason, ANY, ANY);
    tx := RawTaxonomy(
      [Documented("any", reason, 1), Documented("upi", reason, 2)],
      map[key := Rule(RecoverableTechnical, 1.0)]);
    CountsOfTheExample(tx, key);
    OnlyKeyIsFound(tx, Some("any"), key);
    OnlyKeyIsFound(tx, Some("upi"), key);
    OnlyKeyIsFound(tx, None, key);
    RoundingIsMonotone(1.0, 1.0);
    RoundingIsMonotone(0.5, 0.5);
  }

  lemma OnlyKeyIsFound(tx: Taxonomy, m: Option<string>, key: Key)
    requires WildcardMethods(tx) && key in tx.table
    requires key == Key(ANY, key.reason, ANY, ANY) && key.reason != ""
    ensures Lookup(tx, m, Some(key.reason), None, None).confidence
            == RoundHundredths(RawConfidence(tx, m, key))
  {
    MethodDoesNotChooseTheRule(tx, m, key.reason, None, None);
    assert Candidates(None, key.reason, None, None)[0] == key;
  }

  lemma CountsOfTheExample(tx: Taxonomy, key: Key)
    requires tx.documented == [Documented("any", key.reason, 1), Documented("upi", key.reason, 2)]
    requires key.source == ANY && key in tx.table && tx.table[key].directness == 1.0
    ensures CausesIn(tx.documented, "upi", key.reason) == Some(2)
    ensures RawConfidence(tx, Some("any"), key) == 1.0
    ensures RawConfidence(tx, Some("upi"), key) == 0.5 && RawConfidence(tx, None, key) == 0.5
  {
    var rows := tx.documented;
    assert rows[1..] == [Documented("upi", key.reason, 2)];
    assert "upi" != "any" by { assert "upi"[0] != "any"[0]; }
    assert CausesIn(rows[1..], "upi", key.reason) == Some(2);
    assert DocumentedCauses(tx, Some("any"), key.reason) == 1;
    assert DocumentedCauses(tx, Some("upi"), key.reason) == 2;
    assert "" != "any" && "" != "upi" by { assert |""| == 0; }
    assert rows[1..][1..] == [];
    assert CausesIn(rows[1..], "", key.reason) == None && CausesIn(rows, "", key.reason) == None;
    assert WorstCount(rows[1..], key.reason) == 2 && WorstCount(rows, key.reason) == 2;
    assert DocumentedCauses(tx, None, key.reason) == 2;
  }

  /** An ambiguous match claims at most `1/n` before rounding, and at most half a hundredth more after. */
  lemma UnresolvedIsCapped(tx: Taxonomy, m: Option<string>, key: Key)
    requires key in tx.table && key.source == ANY
    ensures var n := DocumentedCauses(tx, m, key.reason);
            && n >= 1
            && 0.0 <= RawConfidence(tx, m, key) <= 1.0 / n as real
            && RoundHundredths(RawConfidence(tx, m, key)) <= 1.0 / n as real + 0.005
  {
    CausesArePositive(tx.documented, Or(m, ""), key.reason);
    CausesArePositive(tx.documented, "any", key.reason);
    var n := DocumentedCauses(tx, m, key.reason);
    CapShrinks(n, n, ANY);
    Fraction(Cap(n, ANY), tx.table[key].directness);
  }

  /** Unresolved among `n` documented causes, a lookup is capped at `1/n`. */
  lemma AmbiguityCapsConfidence(
    tx: Taxonomy, m: Option<string>, reason: Option<string>, source: Option<string>, step: Option<string>)
    requires !MerchantSource(source)
    ensures var found := Lookup(tx, m, reason, source, step);
            found.key.Some? && found.key.value.source == ANY ==>
              var n := DocumentedCauses(tx, m, reason.value);
              && n >= 1
              && found.key.value in tx.table
              && RawConfidence(tx, m, found.key.value) <= 1.0 / n as real
              && found.confidence <= 1.0 / n as real + 0.005
  {
    var found := Lookup(tx, m, reason, source, step);
    if found.key.Some? && found.key.value.source == ANY {
      FoundKeepsReason(tx, m, reason.value, source, step);
      UnresolvedIsCapped(tx, m, found.key.value);
    }
  }

  /** A failure the merchant caused is held whatever the reason, however permissive its rule. */
  lemma MerchantFaultIsHeld(p: Policy, tx: Taxonomy, s: FailureSignal)
    requires s.errorSource == Some("business")
    ensures AuthorityOf(p, Diagnose(tx, s)) == HoldForHuman && Diagnose(tx, s).klass == Unknown
  {
  }

  // -- each answer, in its own terms ---------------------------------------------------

  /** The bars a score must reach: below the lower nothing is done without a person. */
  lemma AuthorityByScore(p: Policy, d: Diagnosis)
    ensures AuthorityOf(p, d) == HoldForHuman <==> d.confidence < p.sampledQa
    ensures AuthorityOf(p, d) == AutoExecute <==> d.confidence >= p.autoExecute
  {
  }

  /** The reasons a capture may follow, by name, and only where there is an order to ask about. */
  lemma VerificationByReason(s: FailureSignal)
    ensures NeedsVerification(s) <==>
              && s.orderId.Some? && s.orderId.value != ""
              && s.errorReason in
                   {Some("payment_timed_out"), Some("gateway_technical_error"),
                    Some("payment_collect_request_expired")}
  {
  }

  /** The greatest count any method but the agnostic list documents, attained by one of them. */
  lemma {:induction false} WorstIsGreatest(rows: seq<Documented>, r: string)
    ensures forall i :: 0 <= i < |rows| && rows[i].scope != "any" && rows[i].reason == r ==>
              rows[i].causes <= WorstCount(rows, r)
    ensures WorstCount(rows, r) > 0 ==>
              exists i :: 0 <= i < |rows| && rows[i].scope != "any" && rows[i].reason == r
                && rows[i].causes == WorstCount(rows, r)
  {
    if rows != [] {
      WorstIsGreatest(rows[1..], r);
      forall i | 0 <= i < |rows| && rows[i].scope != "any" && rows[i].reason == r
        ensures rows[i].causes <= WorstCount(rows, r)
      {
        if i > 0 {
          assert rows[1..][i - 1] == rows[i];
        }
      }
      var rest := WorstCount(rows[1..], r);
      if WorstCount(rows, r) > 0 {
        if WorstCount(rows, r) == rest {
          var i :| 0 <= i < |rows[1..]| && rows[1..][i].scope != "any" && rows[1..][i].reason == r
            && rows[1..][i].causes == rest;
          assert rows[i + 1] == rows[1..][i];
        } else {
          assert rows[0].scope != "any" && rows[0].reason == r && rows[0].causes == WorstCount(rows, r);
        }
      }
    }
  }

  /** The first entry a list holds for a method and a reason. */
  lemma {:induction false} CausesAreTheFirst(rows: seq<Documented>, scope: string, r: string)
    ensures match CausesIn(rows, scope, r)
            case None => forall i :: 0 <= i < |rows| ==> !(rows[i].scope == scope && rows[i].reason == r)
            case Some(n) =>
              exists i :: 0 <= i < |rows| && rows[i] == Documented(scope, r, n)
                && forall j :: 0 <= j < i ==> !(rows[j].scope == scope && rows[j].reason == r)
  {
    if rows != [] {
      if rows[0].scope == scope && rows[0].reason == r {
        assert rows[0] == Documented(scope, r, rows[0].causes);
      } else {
        CausesAreTheFirst(rows[1..], scope, r);
        match CausesIn(rows[1..], scope, r) {
          case None =>
            forall i | 0 <= i < |rows|
              ensures !(rows[i].scope == scope && rows[i].reason == r)
            {
              if i > 0 {
                assert rows[1..][i - 1] == rows[i];
              }
            }
          case Some(n) =>
            var i :| 0 <= i < |rows[1..]| && rows[1..][i] == Documented(scope, r, n)
              && forall j :: 0 <= j < i ==> !(rows[1..][j].scope == scope && rows[1..][j].reason == r);
            assert rows[i + 1] == Documented(scope, r, n);
            forall j | 0 <= j < i + 1
              ensures !(rows[j].scope == scope && rows[j].reason == r)
            {
              if j > 0 {
                assert rows[1..][j - 1] == rows[j];
              }
            }
        }
      }
    }
  }

  predicate Lists(rows: seq<Documented>, scope: string, r: string) {
    exists i :: 0 <= i < |rows| && rows[i].scope == scope && rows[i].reason == r
  }

  predicate AMethodLists(rows: seq<Documented>, r: string) {
    exists i :: 0 <= i < |rows| && rows[i].scope != "any" && rows[i].reason == r
  }

  /** How many causes a reason is read as having: its method's own, the worst of the others, the agnostic, or one. */
  lemma CausesByMethod(tx: Taxonomy, m: Option<string>, r: string)
    ensures var rows, own, n := tx.documented, m.GetOr(""), DocumentedCauses(tx, m, r);
            && (Lists(rows, own, r) ==>
                  exists i :: 0 <= i < |rows| && rows[i] == Documented(own, r, n)
                    && forall j :: 0 <= j < i ==> !(rows[j].scope == own && rows[j].reason == r))
            && (!Lists(rows, own, r) && AMethodLists(rows, r) ==>
                  && (exists i :: 0 <= i < |rows| && rows[i].scope != "any" && rows[i].reason == r
                        && rows[i].causes == n)
                  && (forall i :: 0 <= i < |rows| && rows[i].scope != "any" && rows[i].reason == r ==>
                        rows[i].causes <= n))
            && (!Lists(rows, own, r) && !AMethodLists(rows, r) && Lists(rows, "any", r) ==>
                  exists i :: 0 <= i < |rows| && rows[i] == Documented("any", r, n)
                    && forall j :: 0 <= j < i ==> !(rows[j].scope == "any" && rows[j].reason == r))
            && (!Lists(rows, own, r) && !AMethodLists(rows, r) && !Lists(rows, "any", r) ==> n == 1)
  {
    hide CausesIn, WorstCount;
    CausesAreTheFirst(tx.documented, m.GetOr(""), r);
    WorstIsGreatest(tx.documented, r);
    CausesAreTheFirst(tx.documented, "any", r);
  }

  /** The wildcard stands for what a failure does not name. */
  function Named(x: Option<string>): string {
    if x in {None, Some("")} then "*" else x.value
  }

  /** The keys a failure is looked up under, the most particular first. */
  function KeysFor(m: string, r: string, source: string, step: string): seq<Key> {
    [ Key(m, r, source, step), Key(m, r, source, "*"), Key("*", r, source, step), Key("*", r, source, "*"),
      Key("*", r, "*", "*") ]
  }

  /** The named keys come first, and each wildcard only when they are absent. */
  lemma LookupBySpecificity(
    tx: Taxonomy, m: Option<string>, r: string, source: Option<string>, step: Option<string>)
    requires r != "" && source != Some("business")
    ensures var keys := KeysFor(Named(m), r, Named(source), Named(step));
            match Lookup(tx, m, Some(r), source, step).key
            case None => forall i :: 0 <= i < |keys| ==> keys[i] !in tx.table
            case Some(k) => IsFirst(keys, tx.table, k)
  {
    hide FirstIn, IsFirst, RawConfidence, RoundHundredths;
    var keys := KeysFor(Named(m), r, Named(source), Named(step));
    assert Candidates(m, r, source, step) == keys;
    FirstIsFirst(keys, tx.table);
  }

  predicate IsFirst(keys: seq<Key>, table: map<Key, Rule>, k: Key) {
    exists i :: 0 <= i < |keys| && k == keys[i] && k in table && forall j :: 0 <= j < i ==> keys[j] !in table
  }

  lemma {:induction false} FirstIsFirst(keys: seq<Key>, table: map<Key, Rule>)
    ensures match FirstIn(keys, table)
            case None => forall i :: 0 <= i < |keys| ==> keys[i] !in table
            case Some(k) => IsFirst(keys, table, k)
  {
    if keys != [] && keys[0] !in table {
      FirstIsFirst(keys[1..], table);
      var found := FirstIn(keys[1..], table);
      if found.Some? {
        var i :| 0 <= i < |keys[1..]| && found.value == keys[1..][i]
          && forall j :: 0 <= j < i ==> keys[1..][j] !in table;
        assert keys[i + 1] == found.value;
        forall j | 0 <= j < i + 1
          ensures keys[j] !in table
        {
          if j > 0 {
            assert keys[1..][j - 1] == keys[j];
          }
        }
      }
    }
  }

  /**
   * What a match scores: its rule's directness, shared among the causes its key leaves open, to
   * within half a hundredth. A key that names a source, or a reason with one cause, leaves one.
   */
  lemma TheScoreIsExact(
    tx: Taxonomy, m: Option<string>, reason: Option<string>, source: Option<string>, step: Option<string>)
    requires source != Some("business")
    ensures var found := Lookup(tx, m, reason, source, step);
            found.key.Some? ==>
              && found.key.value in tx.table && found.rule == tx.table[found.key.value]
              && reason.Some?
              && var n := DocumentedCauses(tx, m, reason.value);
                 var open := if found.key.value.source == "*" && n >= 1 then n else 1;
                 -0.005 <= found.confidence - found.rule.directness / open as real <= 0.005
  {
    hide DocumentedCauses, RoundHundredths, Candidates, FirstIn, Cap, Share;
    var found := Lookup(tx, m, reason, source, step);
    if found.key.Some? {
      var key := found.key.value;
      FoundKeepsReason(tx, m, reason.value, source, step);
      SomeCause(tx, m, reason.value);
      ShareOut(DocumentedCauses(tx, m, reason.value), key.source, found.rule.directness);
      RoundingIsMonotone(RawConfidence(tx, m, key), RawConfidence(tx, m, key));
    }
  }

  lemma ShareOut(n: nat, source: string, directness: real)
    requires n >= 1
    ensures var open := if source == "*" && n >= 1 then n else 1;
            Share(Cap(n, source), directness) == directness / open as real
  {
    var open := if source == "*" && n >= 1 then n else 1;
    var cap := Cap(n, source);
    assert cap == 1.0 / open as real;
    assert cap * directness == directness / open as real;
  }
}

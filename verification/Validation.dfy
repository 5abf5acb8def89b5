/** The trust boundary: the default rules, the engine that runs them, and what they amount to. */
module Validation {
  import opened Events

  /** What running one rule gives: its failures, or an exception. */
  datatype RuleReport = Reported(failures: seq<ValidationFailure>) | Broke

  datatype Rule = Rule(name: string, check: InternalEvent -> RuleReport)

  // ----- Text usability: str.strip() -----

  /** `str.isspace` of one character. */
  predicate IsSpace(c: char) {
    var n := c as int;
    9 <= n <= 13 || 28 <= n <= 32 || n == 0x85 || n == 0xA0 || n == 0x1680 || 0x2000 <= n <= 0x200A
    || n == 0x2028 || n == 0x2029 || n == 0x202F || n == 0x205F || n == 0x3000
  }

  function Strip(s: string): string {
    if |s| > 0 && IsSpace(s[0]) then Strip(s[1..])
    else if |s| > 0 && IsSpace(s[|s| - 1]) then Strip(s[..|s| - 1])
    else s
  }

  predicate Blank(s: string) { forall i :: 0 <= i < |s| ==> IsSpace(s[i]) }

  predicate Padded(s: string) { |s| > 0 && (IsSpace(s[0]) || IsSpace(s[|s| - 1])) }

  lemma {:induction false} StripMeaning(s: string)
    ensures Strip(s) == "" <==> Blank(s)
    ensures Strip(s) == s <==> !Padded(s)
    ensures |Strip(s)| <= |s|
  {
    if |s| > 0 && IsSpace(s[0]) {
      StripMeaning(s[1..]);
      assert s == [s[0]] + s[1..];
    } else if |s| > 0 && IsSpace(s[|s| - 1]) {
      StripMeaning(s[..|s| - 1]);
      assert s == s[..|s| - 1] + [s[|s| - 1]];
      if |s| > 1 {
        assert s[..|s| - 1][0] == s[0];
      }
    }
  }

  // ----- The eight rules -----

  function MissingField(value: string): seq<ValidationFailure> {
    if Strip(value) == "" then [ValidationFailure("required_fields", "missing_or_empty")] else []
  }

  /** The failures of some fields, in their order. */
  function MissingFields(values: seq<string>): seq<ValidationFailure> {
    if |values| == 0 then [] else MissingFields(values[..|values| - 1]) + MissingField(values[|values| - 1])
  }

  function FieldsOf(e: InternalEvent): seq<string> { [e.eventId, e.source, e.symbol, e.tradeId] }

  function RequiredFields(e: InternalEvent): seq<ValidationFailure> {
    MissingFields(FieldsOf(e))
    + if e.payloadIsObject then [] else [ValidationFailure("required_fields", "payload_not_object")]
  }

  /** The rule as the platform runs it: one loop over the fields. */
  method CheckRequiredFields(e: InternalEvent) returns (failures: seq<ValidationFailure>)
    ensures failures == RequiredFields(e)
  {
    failures := [];
    var fields := FieldsOf(e);
    for i := 0 to |fields|
      invariant failures == MissingFields(fields[..i])
    {
      assert fields[..i + 1][..i] == fields[..i];
      if Strip(fields[i]) == "" {
        failures := failures + [ValidationFailure("required_fields", "missing_or_empty")];
      }
    }
    assert fields[..|fields|] == fields;
    if !e.payloadIsObject {
      failures := failures + [ValidationFailure("required_fields", "payload_not_object")];
    }
  }

  /** A field is reported exactly when some field is blank. */
  lemma {:induction false} MissingFieldsMeaning(values: seq<string>)
    ensures forall f :: f in MissingFields(values) <==>
                        f == ValidationFailure("required_fields", "missing_or_empty")
                        && exists i :: 0 <= i < |values| && Strip(values[i]) == ""
  {
    if |values| > 0 {
      var init, last := values[..|values| - 1], values[|values| - 1];
      MissingFieldsMeaning(init);
      assert forall i :: 0 <= i < |init| ==> init[i] == values[i];
    }
  }

  lemma SomeFieldBlank(e: InternalEvent)
    ensures (exists i :: 0 <= i < |FieldsOf(e)| && Strip(FieldsOf(e)[i]) == "") <==>
            Strip(e.eventId) == "" || Strip(e.source) == "" || Strip(e.symbol) == "" || Strip(e.tradeId) == ""
  {
    hide Strip;
    var fields := FieldsOf(e);
    assert fields[0] == e.eventId && fields[1] == e.source && fields[2] == e.symbol && fields[3] == e.tradeId;
  }

  /** What the rule reports, and when. */
  lemma RequiredFieldsMeaning(e: InternalEvent)
    ensures forall f :: f in RequiredFields(e) <==>
                        || (f == ValidationFailure("required_fields", "missing_or_empty")
                            && (Strip(e.eventId) == "" || Strip(e.source) == "" || Strip(e.symbol) == "" ||
                                Strip(e.tradeId) == ""))
                        || (f == ValidationFailure("required_fields", "payload_not_object") && !e.payloadIsObject)
    ensures RequiredFields(e) == [] <==> forall f :: f !in RequiredFields(e)
  {
    hide Strip, FieldsOf, MissingFields;
    MissingFieldsMeaning(FieldsOf(e));
    SomeFieldBlank(e);
    if RequiredFields(e) != [] {
      assert RequiredFields(e)[0] in RequiredFields(e);
    }
  }

  function PositiveFinite(rule: string, d: Decimal): seq<ValidationFailure> {
    if d.NonFinite? then [ValidationFailure(rule, "not_finite_decimal")]
    else if d.value <= 0.0 then [ValidationFailure(rule, "non_positive")]
    else []
  }

  function PriceValidity(e: InternalEvent): seq<ValidationFailure> { PositiveFinite("price_validity", e.price) }

  function QuantityValidity(e: InternalEvent): seq<ValidationFailure> {
    PositiveFinite("quantity_validity", e.quantity)
  }

  function TradeSideValidity(e: InternalEvent): seq<ValidationFailure> {
    if e.side.UnsupportedSide? then [ValidationFailure("trade_side_validity", "unsupported_side")] else []
  }

  function TimestampValidity(e: InternalEvent): seq<ValidationFailure> {
    (if e.tradeTimestamp.Naive? then [ValidationFailure("timestamp_validity", "naive_trade_timestamp")] else [])
    + if e.receivedAt.Naive? then [ValidationFailure("timestamp_validity", "naive_received_at")] else []
  }

  function SymbolValidity(e: InternalEvent): seq<ValidationFailure> {
    if Strip(e.symbol) == "" || e.symbol != Strip(e.symbol)
    then [ValidationFailure("symbol_validity", "invalid_symbol")] else []
  }

  function EventIdentity(e: InternalEvent): seq<ValidationFailure> {
    if Strip(e.eventId) != "" then [] else [ValidationFailure("event_identity", "missing_event_id")]
  }

  function TradeIdentity(e: InternalEvent): seq<ValidationFailure> {
    if Strip(e.tradeId) != "" then [] else [ValidationFailure("trade_identity", "missing_trade_id")]
  }

  function DefaultRules(): seq<Rule> {
    [ Rule("required_fields", e => Reported(RequiredFields(e))),
      Rule("event_identity", e => Reported(EventIdentity(e))),
      Rule("trade_identity", e => Reported(TradeIdentity(e))),
      Rule("symbol_validity", e => Reported(SymbolValidity(e))),
      Rule("trade_side_validity", e => Reported(TradeSideValidity(e))),
      Rule("price_validity", e => Reported(PriceValidity(e))),
      Rule("quantity_validity", e => Reported(QuantityValidity(e))),
      Rule("timestamp_validity", e => Reported(TimestampValidity(e))) ]
  }

  // ----- The engine -----

  /** What one rule contributes: its failures, or one failure that names it when it raised. */
  function Contribution(rule: Rule, e: InternalEvent): seq<ValidationFailure> {
    match rule.check(e)
    case Reported(failures) => failures
    case Broke => [ValidationFailure(rule.name, "rule_execution_failed")]
  }

  function Failures(rules: seq<Rule>, e: InternalEvent): seq<ValidationFailure> {
    if |rules| == 0 then [] else Failures(rules[..|rules| - 1], e) + Contribution(rules[|rules| - 1], e)
  }

  function Judge(rules: seq<Rule>, e: InternalEvent): ValidationOutcome {
    ValidationOutcome(Failures(rules, e) == [], Failures(rules, e))
  }

  /** Runs every rule, whatever the earlier ones did. */
  method Validate(rules: seq<Rule>, e: InternalEvent) returns (outcome: ValidationOutcome)
    ensures outcome == Judge(rules, e)
  {
    var failures := [];
    for i := 0 to |rules|
      invariant failures == Failures(rules[..i], e)
    {
      assert rules[..i + 1][..i] == rules[..i];
      match rules[i].check(e) {
        case Reported(reported) => failures := failures + reported;
        case Broke => failures := failures + [ValidationFailure(rules[i].name, "rule_execution_failed")];
      }
    }
    assert rules[..|rules|] == rules;
    outcome := ValidationOutcome(failures == [], failures);
  }

  /** Fail closed: an event is trusted exactly when every configured rule ran to its end and
      found nothing; and the failures of the outcome are exactly those the rules contribute. */
  lemma {:induction false} TrustedOnlyIfEveryRulePasses(rules: seq<Rule>, e: InternalEvent)
    ensures Judge(rules, e).valid <==>
            forall i :: 0 <= i < |rules| ==> rules[i].check(e) == Reported([])
    ensures forall f :: f in Judge(rules, e).failures <==>
                        exists i :: 0 <= i < |rules| && f in Contribution(rules[i], e)
  {
    if |rules| > 0 {
      var init, last := rules[..|rules| - 1], rules[|rules| - 1];
      TrustedOnlyIfEveryRulePasses(init, e);
      assert forall i :: 0 <= i < |init| ==> init[i] == rules[i];
      assert Contribution(last, e) == [] <==> last.check(e) == Reported([]);
      assert Failures(rules, e) == Failures(init, e) + Contribution(last, e);
      forall f ensures f in Failures(rules, e) <==>
                       exists i :: 0 <= i < |rules| && f in Contribution(rules[i], e)
      {
        if f in Failures(init, e) {
          var i :| 0 <= i < |init| && f in Contribution(init[i], e);
          assert f in Contribution(rules[i], e);
        }
        if i :| 0 <= i < |rules| && f in Contribution(rules[i], e) {
          if i < |init| {
            assert f in Contribution(init[i], e);
          }
        }
      }
    }
  }

  predicate Valid(rules: seq<Rule>, e: InternalEvent) { Judge(rules, e).valid }

  /** What the default rules demand of an event, in one sentence. */
  predicate Trustworthy(e: InternalEvent) {
    && !Blank(e.eventId) && !Blank(e.source) && !Blank(e.tradeId)
    && !Blank(e.symbol) && !Padded(e.symbol)
    && e.payloadIsObject
    && (e.side.Buy? || e.side.Sell?)
    && e.price.Finite? && e.price.value > 0.0
    && e.quantity.Finite? && e.quantity.value > 0.0
    && e.tradeTimestamp.Aware? && e.receivedAt.Aware?
  }

  /** A failure is reported exactly when one of the eight rules reports it. */
  lemma SomeRuleReports(e: InternalEvent, f: ValidationFailure)
    ensures f in Judge(DefaultRules(), e).failures <==>
            || f in RequiredFields(e) || f in EventIdentity(e) || f in TradeIdentity(e)
            || f in SymbolValidity(e) || f in TradeSideValidity(e) || f in PriceValidity(e)
            || f in QuantityValidity(e) || f in TimestampValidity(e)
  {
    var r := DefaultRules();
    TrustedOnlyIfEveryRulePasses(r, e);
    assert Contribution(r[0], e) == RequiredFields(e);
    assert Contribution(r[1], e) == EventIdentity(e);
    assert Contribution(r[2], e) == TradeIdentity(e);
    assert Contribution(r[3], e) == SymbolValidity(e);
    assert Contribution(r[4], e) == TradeSideValidity(e);
    assert Contribution(r[5], e) == PriceValidity(e);
    assert Contribution(r[6], e) == QuantityValidity(e);
    assert Contribution(r[7], e) == TimestampValidity(e);
  }

  /** The rules decide trust exactly. */
  lemma ValidMeansTrustworthy(e: InternalEvent)
    ensures Valid(DefaultRules(), e) <==> Trustworthy(e)
  {
    hide Failures, Strip, Blank, Padded, RequiredFields;
    var r := DefaultRules();
    TrustedOnlyIfEveryRulePasses(r, e);
    assert Valid(DefaultRules(), e) <==>
      && r[0].check(e) == Reported([]) && r[1].check(e) == Reported([]) && r[2].check(e) == Reported([])
      && r[3].check(e) == Reported([]) && r[4].check(e) == Reported([]) && r[5].check(e) == Reported([])
      && r[6].check(e) == Reported([]) && r[7].check(e) == Reported([]);
    StripMeaning(e.eventId);
    StripMeaning(e.source);
    StripMeaning(e.symbol);
    StripMeaning(e.tradeId);
    RequiredFieldsAccepts(e);
  }

  lemma RequiredFieldsAccepts(e: InternalEvent)
    ensures RequiredFields(e) == [] <==>
            && Strip(e.eventId) != "" && Strip(e.source) != "" && Strip(e.symbol) != "" && Strip(e.tradeId) != ""
            && e.payloadIsObject
  {
    hide Strip, RequiredFields;
    RequiredFieldsMeaning(e);
    var missing := ValidationFailure("required_fields", "missing_or_empty");
    var payload := ValidationFailure("required_fields", "payload_not_object");
    assert missing in RequiredFields(e) || missing !in RequiredFields(e);
    assert payload in RequiredFields(e) || payload !in RequiredFields(e);
  }

  /** The problem a failure describes, read off the event directly. */
  predicate DescribesText(f: ValidationFailure, e: InternalEvent) {
    || (f == ValidationFailure("required_fields", "missing_or_empty")
        && (Blank(e.eventId) || Blank(e.source) || Blank(e.symbol) || Blank(e.tradeId)))
    || (f == ValidationFailure("required_fields", "payload_not_object") && !e.payloadIsObject)
    || (f == ValidationFailure("event_identity", "missing_event_id") && Blank(e.eventId))
    || (f == ValidationFailure("trade_identity", "missing_trade_id") && Blank(e.tradeId))
    || (f == ValidationFailure("symbol_validity", "invalid_symbol") && (Blank(e.symbol) || Padded(e.symbol)))
  }

  predicate DescribesAmount(f: ValidationFailure, rule: string, d: Decimal) {
    || (f == ValidationFailure(rule, "not_finite_decimal") && d.NonFinite?)
    || (f == ValidationFailure(rule, "non_positive") && d.Finite? && d.value <= 0.0)
  }

  predicate DescribesMarket(f: ValidationFailure, e: InternalEvent) {
    || (f == ValidationFailure("trade_side_validity", "unsupported_side") && e.side.UnsupportedSide?)
    || DescribesAmount(f, "price_validity", e.price)
    || DescribesAmount(f, "quantity_validity", e.quantity)
    || (f == ValidationFailure("timestamp_validity", "naive_trade_timestamp") && e.tradeTimestamp.Naive?)
    || (f == ValidationFailure("timestamp_validity", "naive_received_at") && e.receivedAt.Naive?)
  }

  lemma TextRulesDescribe(e: InternalEvent, f: ValidationFailure)
    ensures DescribesText(f, e) <==>
            f in RequiredFields(e) || f in EventIdentity(e) || f in TradeIdentity(e) || f in SymbolValidity(e)
  {
    hide Strip, Blank, Padded, RequiredFields;
    RequiredFieldsMeaning(e);
    StripMeaning(e.eventId);
    StripMeaning(e.source);
    StripMeaning(e.symbol);
    StripMeaning(e.tradeId);
  }

  lemma MarketRulesDescribe(e: InternalEvent, f: ValidationFailure)
    ensures DescribesMarket(f, e) <==>
            f in TradeSideValidity(e) || f in PriceValidity(e) || f in QuantityValidity(e) || f in TimestampValidity(e)
  {
  }

  /** A rejection names every problem the event has, and no problem it does not have. */
  lemma RejectionNamesEveryProblem(e: InternalEvent, f: ValidationFailure)
    ensures f in Judge(DefaultRules(), e).failures <==> DescribesText(f, e) || DescribesMarket(f, e)
  {
    SomeRuleReports(e, f);
    TextRulesDescribe(e, f);
    MarketRulesDescribe(e, f);
  }

  /** The failures of a rejection come in the order of the default rules. */
  lemma FailuresInOrder(e: InternalEvent)
    ensures Judge(DefaultRules(), e).failures ==
            RequiredFields(e) + EventIdentity(e) + TradeIdentity(e) + SymbolValidity(e) + TradeSideValidity(e)
            + PriceValidity(e) + QuantityValidity(e) + TimestampValidity(e)
  {
    hide RequiredFields, EventIdentity, TradeIdentity, SymbolValidity, TradeSideValidity, PriceValidity,
         QuantityValidity, TimestampValidity, Failures;
    var r := DefaultRules();
    FailuresSnoc(r[..0], r[0], e);
    FailuresSnoc(r[..1], r[1], e);
    FailuresSnoc(r[..2], r[2], e);
    FailuresSnoc(r[..3], r[3], e);
    FailuresSnoc(r[..4], r[4], e);
    FailuresSnoc(r[..5], r[5], e);
    FailuresSnoc(r[..6], r[6], e);
    FailuresSnoc(r[..7], r[7], e);
    assert r[..0] == [] && Failures(r[..0], e) == [] by { NoFailures(e); }
    assert r[..0] + [r[0]] == r[..1] && r[..1] + [r[1]] == r[..2] && r[..2] + [r[2]] == r[..3];
    assert r[..3] + [r[3]] == r[..4] && r[..4] + [r[4]] == r[..5] && r[..5] + [r[5]] == r[..6];
    assert r[..6] + [r[6]] == r[..7] && r[..7] + [r[7]] == r;
  }

  lemma FailuresSnoc(rules: seq<Rule>, rule: Rule, e: InternalEvent)
    ensures Failures(rules + [rule], e) == Failures(rules, e) + Contribution(rule, e)
  {
    assert (rules + [rule])[..|rules|] == rules;
  }

  lemma NoFailures(e: InternalEvent)
    ensures Failures([], e) == []
  {
  }

  /** A rule that raises is named, and the others are still reported. */
  lemma BrokenRuleIsNamed(before: seq<Rule>, broken: Rule, after: seq<Rule>, e: InternalEvent)
    requires broken.check(e).Broke?
    ensures Failures(before + [broken] + after, e) ==
            Failures(before, e) + [ValidationFailure(broken.name, "rule_execution_failed")] + Failures(after, e)
  {
    FailuresSnoc(before, broken, e);
    FailuresConcat(before + [broken], after, e);
  }

  lemma {:induction false} FailuresConcat(a: seq<Rule>, b: seq<Rule>, e: InternalEvent)
    ensures Failures(a + b, e) == Failures(a, e) + Failures(b, e)
  {
    if |b| == 0 {
      assert a + b == a;
    } else {
      var init, last := b[..|b| - 1], b[|b| - 1];
      FailuresConcat(a, init, e);
      assert (a + b)[..|a + b| - 1] == a + init && (a + b)[|a + b| - 1] == last;
      assert Failures(a, e) + (Failures(init, e) + Contribution(last, e))
          == (Failures(a, e) + Failures(init, e)) + Contribution(last, e);
    }
  }

  /** In ASCII the white space is the space, the tabulators, the line ends and the separators, and no
      printed character is. */
  lemma AsciiSpaces(c: char)
    requires c < 128 as char
    ensures c in {' ', '\t', '\n', '\r'} ==> IsSpace(c)
    ensures 33 as char <= c <= 126 as char ==> !IsSpace(c)
  {
  }

  /** Only the white space around a text is stripped. */
  lemma StripExamples()
    ensures Strip(" \t") == "" && Strip(" BTC USD\n") == "BTC USD" && Strip("BTC-USD") == "BTC-USD"
  {
    assert Strip("BTC USD\n") == "BTC USD" by {
      assert "BTC USD\n"[..7] == "BTC USD";
    }
    assert " BTC USD\n"[1..] == "BTC USD\n";
    assert " \t"[1..] == "\t" && "\t"[1..] == "";
  }
}

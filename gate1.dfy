/**
 * Gate 1 of the trading agent: structural integrity of a candidate intent.
 * The rules are checked in a fixed order and the first failure names itself.
 */
module Gate1Integrity {
  import opened Wrappers
  import opened Values
  import Text
  import opened TradingState

  const RequiredFields: seq<string> := ["asset", "side", "amount", "timestamp", "coherence"]

  const MissingPrefix: string := "invalid_intent_missing_fields:"

  /** `a` is `b` with some elements left out, the rest in their order. */
  predicate Subsequence(a: seq<string>, b: seq<string>)
    decreases |b|
  {
    if a == [] then true
    else if b == [] then false
    else if a[0] == b[0] then Subsequence(a[1..], b[1..])
    else Subsequence(a, b[1..])
  }

  /** The listed fields absent from the intent, in list order. */
  function MissingOf(fields: seq<string>, intent: Dict): (m: seq<string>)
    ensures forall k :: k in m <==> k in fields && k !in intent
    ensures |m| <= |fields|
    ensures Subsequence(m, fields)
  {
    if fields == [] then []
    else
      var rest := MissingOf(fields[1..], intent);
      if fields[0] in intent then
        assert rest != [] ==> rest[0] in rest && rest[0] != fields[0];
        rest
      else
        assert ([fields[0]] + rest)[1..] == rest;
        [fields[0]] + rest
  }

  predicate ValidSide(v: Value) {
    v == VStr("BUY") || v == VStr("SELL")
  }

  /**
   * `gate1_validate_intent(intent)`. `float()` of a value that is not a
   * number raises, as in the source.
   */
  function Validate(intent: Dict): (r: Result<GateResult>)
    ensures r.Ok? ==> (r.value.ok <==> r.value == Pass)
    ensures r.Raise? ==> (forall k :: k in RequiredFields ==> k in intent) && ValidSide(intent["side"])
  {
    var missing := MissingOf(RequiredFields, intent);
    if missing != [] then
      Ok(GateResult(false, MissingPrefix + Text.Join(missing, ",")))
    else Judge(intent["side"], intent["amount"], intent["coherence"])
  }

  /** The rules after presence, on the side, amount and coherence of the intent, in that order. */
  function Judge(side: Value, amount: Value, coherence: Value): (r: Result<GateResult>)
    ensures r.Ok? ==> (r.value.ok <==> r.value == Pass)
    ensures r.Raise? ==> ValidSide(side)
  {
    if !ValidSide(side) then
      Ok(GateResult(false, "invalid_intent_side"))
    else
      var amountF := ToFloat(amount);
      if amountF.Raise? then Raise(amountF.error)
      else if amountF.value <= 0.0 then Ok(GateResult(false, "invalid_intent_amount"))
      else
        var coherenceF := ToFloat(coherence);
        if coherenceF.Raise? then Raise(coherenceF.error)
        else if !(0.0 <= coherenceF.value <= 1.0) then Ok(GateResult(false, "invalid_intent_coherence"))
        else Ok(Pass)
  }

  /** An intent that satisfies every rule of the gate. */
  predicate WellFormed(intent: Dict) {
    (forall k :: k in RequiredFields ==> k in intent)
    && ValidSide(intent["side"])
    && ToFloat(intent["amount"]).Ok? && ToFloat(intent["amount"]).value > 0.0
    && ToFloat(intent["coherence"]).Ok? && 0.0 <= ToFloat(intent["coherence"]).value <= 1.0
  }

  /** The gate passes exactly the well-formed intents, and only ever answers "pass" when it passes. */
  lemma PassIffWellFormed(intent: Dict)
    ensures Validate(intent) == Ok(Pass) <==> WellFormed(intent)
    ensures Validate(intent).Ok? ==> (Validate(intent).value.ok <==> Validate(intent).value.reason == "pass")
  {
    var missing := MissingOf(RequiredFields, intent);
    if missing == [] {
      assert forall k :: k in RequiredFields ==> k in intent;
    } else {
      assert missing[0] in RequiredFields && missing[0] !in intent;
    }
  }

  /**
   * Rule order: missing fields first, then side, amount and coherence; each
   * failing rule shadows the ones after it.
   */
  lemma FirstFailureWins(intent: Dict)
    ensures MissingOf(RequiredFields, intent) != [] ==>
              Validate(intent) == Ok(GateResult(false, MissingPrefix + Text.Join(MissingOf(RequiredFields, intent), ",")))
    ensures MissingOf(RequiredFields, intent) == [] && !ValidSide(intent["side"]) ==>
              Validate(intent) == Ok(GateResult(false, "invalid_intent_side"))
    ensures MissingOf(RequiredFields, intent) == [] && ValidSide(intent["side"])
            && ToFloat(intent["amount"]).Ok? && ToFloat(intent["amount"]).value <= 0.0 ==>
              Validate(intent) == Ok(GateResult(false, "invalid_intent_amount"))
  {
  }

  /** The coherence bounds are closed: 0 and 1 are accepted, anything outside is refused. */
  lemma CoherenceBoundsInclusive(asset: Value, side: Value, amount: real, timestamp: Value, coherence: real)
    requires ValidSide(side) && amount > 0.0
    ensures var intent := map["asset" := asset, "side" := side, "amount" := VFloat(amount),
                              "timestamp" := timestamp, "coherence" := VFloat(coherence)];
            Validate(intent) == if 0.0 <= coherence <= 1.0 then Ok(Pass)
                                else Ok(GateResult(false, "invalid_intent_coherence"))
  {
    var intent := map["asset" := asset, "side" := side, "amount" := VFloat(amount),
                      "timestamp" := timestamp, "coherence" := VFloat(coherence)];
    NoneMissing(intent);
  }

  lemma NoneMissing(intent: Dict)
    requires forall k :: k in RequiredFields ==> k in intent
    ensures MissingOf(RequiredFields, intent) == []
  {
    NoneMissingOf(RequiredFields, intent);
  }

  lemma {:induction false} NoneMissingOf(fields: seq<string>, intent: Dict)
    requires forall k :: k in fields ==> k in intent
    ensures MissingOf(fields, intent) == []
  {
    if fields != [] {
      NoneMissingOf(fields[1..], intent);
    }
  }

  /** Intents that agree on the required fields get the same answer. */
  predicate AgreeOnRequired(a: Dict, b: Dict) {
    forall k :: k in RequiredFields ==> (k in a <==> k in b) && (k in a ==> a[k] == b[k])
  }

  /** Extra keys are ignored: only the required fields are consulted. */
  lemma ExtraKeysIgnored(a: Dict, b: Dict)
    requires AgreeOnRequired(a, b)
    ensures Validate(a) == Validate(b)
  {
    MissingOfRestricted(RequiredFields, a, b);
    assert "side" in RequiredFields && "amount" in RequiredFields && "coherence" in RequiredFields;
    SameAnswer(a, b);
  }

  /** The keys whose values the gate reads once none is missing. */
  const Consulted: seq<string> := ["side", "amount", "coherence"]

  /** Two intents missing the same fields, and otherwise agreeing on the consulted ones, get the same answer. */
  lemma SameAnswer(a: Dict, b: Dict)
    requires MissingOf(RequiredFields, a) == MissingOf(RequiredFields, b)
    requires forall k :: k in Consulted ==> (k in a <==> k in b) && (k in a ==> a[k] == b[k])
    ensures Validate(a) == Validate(b)
  {
    if MissingOf(RequiredFields, a) == [] {
      assert "side" in RequiredFields && "amount" in RequiredFields && "coherence" in RequiredFields;
      assert "side" in Consulted && "amount" in Consulted && "coherence" in Consulted;
      assert a["side"] == b["side"] && a["amount"] == b["amount"] && a["coherence"] == b["coherence"];
    }
  }

  lemma {:induction false} MissingOfRestricted(fields: seq<string>, a: Dict, b: Dict)
    requires forall k :: k in fields ==> (k in a <==> k in b)
    ensures MissingOf(fields, a) == MissingOf(fields, b)
  {
    if fields != [] {
      MissingOfRestricted(fields[1..], a, b);
    }
  }

  /** The timestamp is only required to be present; its value never matters. */
  lemma TimestampValueIgnored(intent: Dict, v: Value)
    requires "timestamp" in intent
    ensures Validate(intent["timestamp" := v]) == Validate(intent)
  {
    var changed := intent["timestamp" := v];
    MissingOfRestricted(RequiredFields, intent, changed);
    assert forall k :: k in Consulted ==> k != "timestamp";
    SameAnswer(intent, changed);
  }

  /** An empty intent reports every required field, in declaration order. */
  lemma EmptyIntentListsAllFields()
    ensures Validate(map[]) == Ok(GateResult(false, MissingPrefix + Text.Join(RequiredFields, ",")))
  {
    MissingFromEmpty(RequiredFields);
  }

  lemma {:induction false} MissingFromEmpty(fields: seq<string>)
    ensures MissingOf(fields, map[]) == fields
  {
    if fields != [] {
      MissingFromEmpty(fields[1..]);
      assert [fields[0]] + fields[1..] == fields;
    }
  }
}

/**
 * The input validators of `PiNetwork` (src/index.ts:98-121). Each is a chain
 * of guards over an untyped JavaScript value that throws a plain `Error` at
 * the first guard that fails. The chains are written as the source writes
 * them; `FirstViolation` over an ordered rule table is the reference
 * definition they are proved equal to.
 */
module Validation {
  import opened JsValues

  /** The outcome of a validator: it returns, or it throws `Error(message)`. */
  datatype Verdict = Pass | Fail(message: string)

  const MissingApiKey := "Missing API key"
  const ApiKeyNotString := "API key must be a string"
  const MissingSeed := "Missing wallet private seed"
  const SeedNotString := "Wallet private seed must be a string"
  const SeedNotStartsWithS := "Wallet private seed must starts with 'S'"
  const SeedNot56Long := "Wallet private seed must be 56-character long"
  const PaymentDataNotObject := "Payment data must be an object"
  const MissingAmount := "Missing amount"
  const AmountNotNumber := "Amount must be a number"
  const MissingMemo := "Missing memo"
  const MemoNotString := "Memo must be a string"
  const MissingMetadata := "Missing metadata"
  const MetadataNotObject := "Metadata must be an object"
  const MissingUid := "Missing uid"
  const UidNotString := "Uid must be a string"

  /** `typeof` reports "object" and the value is not null. */
  predicate IsNonNullObject(v: Value)
  {
    TypeOf(v) == "object" && !v.Null?
  }

  /** `validateApiKey`. */
  function ValidateApiKey(apiKey: Value): (r: Verdict)
    ensures r == Pass <==> apiKey.Str? && apiKey.s != ""
  {
    if !Truthy(apiKey) then Fail(MissingApiKey)
    else if TypeOf(apiKey) != "string" then Fail(ApiKeyNotString)
    else Pass
  }

  /** `validateSeedFormat`. */
  function ValidateSeedFormat(seed: Value): (r: Verdict)
    ensures r == Pass <==> seed.Str? && Utf16Length(seed.s) == 56 && seed.s[0] == 'S'
  {
    if !Truthy(seed) then Fail(MissingSeed)
    else if TypeOf(seed) != "string" then Fail(SeedNotString)
    else if !(|seed.s| > 0 && seed.s[0] == 'S') then Fail(SeedNotStartsWithS)
    else if Utf16Length(seed.s) != 56 then Fail(SeedNot56Long)
    else Pass
  }

  /** `validatePaymentData`. */
  function ValidatePaymentData(paymentData: Value): (r: Verdict)
    ensures r == Pass <==>
              && paymentData.Object?
              && "amount" in paymentData.properties && paymentData.properties["amount"].Num?
              && "memo" in paymentData.properties && paymentData.properties["memo"].Str?
              && "metadata" in paymentData.properties && paymentData.properties["metadata"].Object?
              && "uid" in paymentData.properties && paymentData.properties["uid"].Str?
  {
    if !IsNonNullObject(paymentData) then Fail(PaymentDataNotObject)
    else if !HasProperty(paymentData, "amount") then Fail(MissingAmount)
    else if TypeOf(Property(paymentData, "amount")) != "number" then Fail(AmountNotNumber)
    else if !HasProperty(paymentData, "memo") then Fail(MissingMemo)
    else if TypeOf(Property(paymentData, "memo")) != "string" then Fail(MemoNotString)
    else if !HasProperty(paymentData, "metadata") then Fail(MissingMetadata)
    else if !IsNonNullObject(Property(paymentData, "metadata")) then Fail(MetadataNotObject)
    else if !HasProperty(paymentData, "uid") then Fail(MissingUid)
    else if TypeOf(Property(paymentData, "uid")) != "string" then Fail(UidNotString)
    else Pass
  }

  /**
   * The constructor's two checks (src/index.ts:13-14): the seed first, then
   * the API key.
   */
  function ValidateConstructorArgs(apiKey: Value, walletPrivateSeed: Value): (r: Verdict)
    ensures ValidateSeedFormat(walletPrivateSeed).Fail? ==> r == ValidateSeedFormat(walletPrivateSeed)
    ensures ValidateSeedFormat(walletPrivateSeed) == Pass ==> r == ValidateApiKey(apiKey)
    ensures r == Pass <==>
              && walletPrivateSeed.Str? && Utf16Length(walletPrivateSeed.s) == 56 && walletPrivateSeed.s[0] == 'S'
              && apiKey.Str? && apiKey.s != ""
  {
    var seedVerdict := ValidateSeedFormat(walletPrivateSeed);
    if seedVerdict.Fail? then seedVerdict else ValidateApiKey(apiKey)
  }

  /** Any falsy value (undefined, null, "", 0, NaN, false, 0n) is a missing key. */
  lemma FalsyApiKeyIsMissing(apiKey: Value)
    requires !Truthy(apiKey)
    ensures ValidateApiKey(apiKey) == Fail(MissingApiKey)
  {
  }

  /** A 56-character seed that does not start with "S" is reported for its prefix, not its length. */
  lemma PrefixCheckedBeforeLength(seed: string)
    requires Utf16Length(seed) == 56 && seed[0] != 'S'
    ensures ValidateSeedFormat(Str(seed)) == Fail(SeedNotStartsWithS)
  {
  }

  /**
   * The length test counts UTF-16 code units: a seed of 56 characters whose
   * last one lies beyond U+FFFF has length 57 and is refused, although every
   * character before it is well-formed.
   */
  lemma AstralCharacterCountsTwice(seed: string, c: char)
    requires |seed| == 55 && seed[0] == 'S'
    requires forall i :: 0 <= i < |seed| ==> (seed[i] as int) < 0x1_0000
    requires (c as int) >= 0x1_0000
    ensures |seed + [c]| == 56
    ensures ValidateSeedFormat(Str(seed + [c])) == Fail(SeedNot56Long)
  {
    assert (seed + [c])[..|seed + [c]| - 1] == seed;
  }

  // ---------------------------------------------------------------------------
  // Reference definition: an ordered table of self-contained rules, of which
  // the first violated one decides the outcome.

  /** One test a validator applies, stated without relying on earlier tests. */
  datatype Guard =
    | IsTruthy
    | IsString
    | StartsWithS
    | HasLength(n: nat)
    | IsObject
    | HasField(key: string)
    | FieldIsNumber(key: string)
    | FieldIsString(key: string)
    | FieldIsObject(key: string)

  predicate Holds(g: Guard, v: Value)
  {
    match g
    case IsTruthy => Truthy(v)
    case IsString => v.Str?
    case StartsWithS => v.Str? && |v.s| > 0 && v.s[0] == 'S'
    case HasLength(n) => v.Str? && Utf16Length(v.s) == n
    case IsObject => v.Object?
    case HasField(k) => v.Object? && k in v.properties
    case FieldIsNumber(k) => v.Object? && k in v.properties && v.properties[k].Num?
    case FieldIsString(k) => v.Object? && k in v.properties && v.properties[k].Str?
    case FieldIsObject(k) => v.Object? && k in v.properties && v.properties[k].Object?
  }

  datatype Rule = Rule(guard: Guard, message: string)

  /** The message of the first rule `v` violates, or `Pass` when it violates none. */
  function FirstViolation(rules: seq<Rule>, v: Value): (verdict: Verdict)
  {
    if rules == [] then Pass
    else if !Holds(rules[0].guard, v) then Fail(rules[0].message)
    else FirstViolation(rules[1..], v)
  }

  /**
   * `FirstViolation` passes exactly when every rule holds, and otherwise
   * reports the message of a rule that fails, every rule before it holding.
   */
  lemma {:induction false} FirstViolationMeaning(rules: seq<Rule>, v: Value)
    ensures FirstViolation(rules, v) == Pass <==> forall i :: 0 <= i < |rules| ==> Holds(rules[i].guard, v)
    ensures FirstViolation(rules, v).Fail? ==>
              exists i :: && 0 <= i < |rules|
                          && FirstViolation(rules, v).message == rules[i].message
                          && !Holds(rules[i].guard, v)
                          && forall j :: 0 <= j < i ==> Holds(rules[j].guard, v)
  {
    if rules != [] && Holds(rules[0].guard, v) {
      FirstViolationMeaning(rules[1..], v);
      assert forall i :: 0 < i < |rules| ==> rules[i] == rules[1..][i - 1];
      if FirstViolation(rules, v).Fail? {
        var i :| && 0 <= i < |rules[1..]|
                 && FirstViolation(rules, v).message == rules[1..][i].message
                 && !Holds(rules[1..][i].guard, v)
                 && forall j :: 0 <= j < i ==> Holds(rules[1..][j].guard, v);
        assert forall j :: 0 <= j < i + 1 ==> Holds(rules[j].guard, v) by {
          forall j | 0 <= j < i + 1 ensures Holds(rules[j].guard, v) {
            if j > 0 { assert rules[j] == rules[1..][j - 1]; }
          }
        }
      }
    }
  }

  const ApiKeyRules := [Rule(IsTruthy, MissingApiKey), Rule(IsString, ApiKeyNotString)]

  const SeedRules := [
    Rule(IsTruthy, MissingSeed),
    Rule(IsString, SeedNotString),
    Rule(StartsWithS, SeedNotStartsWithS),
    Rule(HasLength(56), SeedNot56Long)
  ]

  /** Each field: presence first, then type. Fields in the order amount, memo, metadata, uid. */
  const PaymentDataRules := [
    Rule(IsObject, PaymentDataNotObject),
    Rule(HasField("amount"), MissingAmount),
    Rule(FieldIsNumber("amount"), AmountNotNumber),
    Rule(HasField("memo"), MissingMemo),
    Rule(FieldIsString("memo"), MemoNotString),
    Rule(HasField("metadata"), MissingMetadata),
    Rule(FieldIsObject("metadata"), MetadataNotObject),
    Rule(HasField("uid"), MissingUid),
    Rule(FieldIsString("uid"), UidNotString)
  ]

  /** Unfolds one step of `FirstViolation` on a non-empty table. */
  lemma FirstViolationStep(rules: seq<Rule>, v: Value)
    requires rules != []
    ensures FirstViolation(rules, v) ==
              if !Holds(rules[0].guard, v) then Fail(rules[0].message) else FirstViolation(rules[1..], v)
  {
  }

  lemma ApiKeyChecksInOrder(apiKey: Value)
    ensures ValidateApiKey(apiKey) == FirstViolation(ApiKeyRules, apiKey)
  {
    var rules := ApiKeyRules;
    FirstViolationStep(rules, apiKey);
    FirstViolationStep(rules[1..], apiKey);
    assert rules[1..][1..] == [];
  }

  lemma SeedChecksInOrder(seed: Value)
    ensures ValidateSeedFormat(seed) == FirstViolation(SeedRules, seed)
  {
    var rules := SeedRules;
    FirstViolationStep(rules, seed);
    FirstViolationStep(rules[1..], seed);
    FirstViolationStep(rules[2..], seed);
    FirstViolationStep(rules[3..], seed);
    assert rules[1..][1..] == rules[2..];
    assert rules[2..][1..] == rules[3..];
    assert rules[3..][1..] == [];
  }

  lemma PaymentDataChecksInOrder(paymentData: Value)
    ensures ValidatePaymentData(paymentData) == FirstViolation(PaymentDataRules, paymentData)
  {
    var v := paymentData;
    var r0 := PaymentDataRules;
    var r1 := r0[1..];
    var r2 := r1[1..];
    var r3 := r2[1..];
    var r4 := r3[1..];
    var r5 := r4[1..];
    var r6 := r5[1..];
    var r7 := r6[1..];
    var r8 := r7[1..];
    FirstViolationStep(r0, v);
    FirstViolationStep(r1, v);
    FirstViolationStep(r2, v);
    FirstViolationStep(r3, v);
    FirstViolationStep(r4, v);
    FirstViolationStep(r5, v);
    FirstViolationStep(r6, v);
    FirstViolationStep(r7, v);
    FirstViolationStep(r8, v);
    assert r8[1..] == [];
  }
}

/** The chip-refill form: the amount field, clamped on every edit to 1 to
    10,000, three preset buttons, and the add button. */
module BuyChips {
  import opened Numbers

  const DefaultRefillAmount := 500
  const MinRefill := 1
  const MaxRefill := 10000

  /** The preset buttons; each sets the amount (it does not add to it). */
  datatype Preset = Preset500 | Preset2000 | Preset10000

  function PresetAmount(p: Preset): int {
    match p
    case Preset500 => 500
    case Preset2000 => 2000
    case Preset10000 => 10000
  }

  /** The clamp on a parsed amount: `NaN` or anything below 1 becomes 1, then
      anything above 10,000 becomes 10,000. */
  function Clamp(parsed: Option<int>): (amount: int)
    ensures MinRefill <= amount <= MaxRefill
    ensures parsed.None? ==> amount == MinRefill
    ensures parsed.Some? && parsed.value < MinRefill ==> amount == MinRefill
    ensures parsed.Some? && parsed.value > MaxRefill ==> amount == MaxRefill
    ensures parsed.Some? && MinRefill <= parsed.value <= MaxRefill ==> amount == parsed.value
  {
    var value := if parsed.None? || parsed.value < MinRefill then MinRefill else parsed.value;
    if value > MaxRefill then MaxRefill else value
  }

  /** The amount an edit of the field leaves: the text through `parseInt`,
      then the clamp. */
  function TypedAmount(text: string): int {
    Clamp(ParseInt(text))
  }

  /** Clamping twice is clamping once. */
  lemma ClampIdempotent(parsed: Option<int>)
    ensures Clamp(Some(Clamp(parsed))) == Clamp(parsed)
  {
  }

  /** Typing any amount in range, as a plain numeral, keeps it exactly. */
  lemma TypedAmountInRange(n: nat)
    requires MinRefill <= n <= MaxRefill
    ensures TypedAmount(DecimalString(n)) == n
  {
    ParseDecimal(n);
  }

  /** Typing a negative numeral gives the minimum. */
  lemma TypedNegative(n: nat)
    ensures TypedAmount("-" + DecimalString(n)) == MinRefill
  {
    ParseNegativeDecimal(n);
  }

  /** Typing text that does not start with a number gives the minimum. */
  lemma TypedNotANumber(text: string)
    requires ParseInt(text).None?
    ensures TypedAmount(text) == MinRefill
  {
  }

  /** Typing text whose first character is neither white space, a sign nor a
      digit (a letter, a decimal point) gives the minimum. */
  lemma TypedWithoutDigits(text: string)
    requires |text| > 0 && !IsJsSpace(text[0]) && !IsDigit(text[0])
    requires text[0] != '-' && text[0] != '+'
    ensures TypedAmount(text) == MinRefill
  {
    ParseWithoutDigits(text);
    TypedNotANumber(text);
  }

  /** One change to the amount field. */
  datatype Edit = Typed(text: string) | Picked(preset: Preset)

  function ApplyEdit(amount: int, e: Edit): int {
    match e
    case Typed(text) => TypedAmount(text)
    case Picked(p) => PresetAmount(p)
  }

  /** The amount after a series of edits, starting from the default. */
  function AmountAfter(edits: seq<Edit>): int {
    if |edits| == 0 then DefaultRefillAmount
    else ApplyEdit(AmountAfter(edits[..|edits| - 1]), edits[|edits| - 1])
  }

  /** The add button's disabled rule. */
  function AddDisabled(loading: bool, amount: int): bool {
    loading || amount < MinRefill
  }

  /** Whatever the edits, the amount stays within 1 to 10,000: the default
      and every preset lie in range and every typed value is clamped. So the
      add button is disabled exactly while a refill is loading. */
  lemma AmountAlwaysInRange(edits: seq<Edit>, loading: bool)
    ensures MinRefill <= AmountAfter(edits) <= MaxRefill
    ensures AddDisabled(loading, AmountAfter(edits)) == loading
  {
  }
}

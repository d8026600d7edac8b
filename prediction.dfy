/**
 * Prediction enums and the small rules over them: which statuses may still be edited, which
 * are final, how a ticker symbol is normalised and when it is valid.
 */
module Prediction {
  import opened Strings

  datatype PredictionChoice = Up | Down

  datatype PredictionStatus = Pending | Locked | Correct | Incorrect | Void

  /** `isPredictionEditable`: only a pending prediction can be changed. */
  function IsPredictionEditable(status: PredictionStatus): (editable: bool)
    ensures editable <==> status.Pending?
    ensures editable ==> !IsPredictionCompleted(status)
  {
    status == Pending
  }

  /** `isPredictionCompleted`: membership in the list of final statuses. */
  function IsPredictionCompleted(status: PredictionStatus): (completed: bool)
    ensures completed <==> status.Correct? || status.Incorrect? || status.Void?
  {
    status in [Correct, Incorrect, Void]
  }

  /** No status is both editable and completed, and a locked prediction is neither: it
      waits for its outcome. */
  lemma EditableAndCompletedDisjoint(status: PredictionStatus)
    ensures !(IsPredictionEditable(status) && IsPredictionCompleted(status))
    ensures status == Locked <==> !IsPredictionEditable(status) && !IsPredictionCompleted(status)
  {
  }

  /** `normalizeSymbol`: upper-case, then trim. */
  function NormalizeSymbol(symbol: string): (normal: string)
    ensures |normal| <= |symbol|
    ensures forall c :: c in normal ==> !IsLowerAscii(c)
    ensures normal == [] || (!IsJsWhitespace(normal[0]) && !IsJsWhitespace(normal[|normal| - 1]))
  {
    var upper := ToUpper(symbol);
    TrimChars(upper);
    Trim(upper)
  }

  /** Normalising twice gives the same as normalising once. */
  lemma NormalizeSymbolIdempotent(symbol: string)
    ensures NormalizeSymbol(NormalizeSymbol(symbol)) == NormalizeSymbol(symbol)
  {
    var upper := ToUpper(symbol);
    var t := Trim(upper);
    TrimChars(upper);
    ToUpperNoLower(t);
    TrimIdempotent(upper);
  }

  /** The regular expression `[A-Z]{min,max}` anchored at both ends, read left to right:
      each step consumes one upper-case letter from the budget. */
  function MatchUpperRun(s: string, min: nat, max: nat): bool
    decreases |s|
  {
    if s == [] then min == 0
    else max > 0 && 'A' <= s[0] <= 'Z' && MatchUpperRun(s[1..], if min > 0 then min - 1 else 0, max - 1)
  }

  predicate IsUpperAscii(c: char) {
    'A' <= c <= 'Z'
  }

  /** The regular expression accepts exactly the strings of `min` to `max` upper-case
      letters. */
  lemma {:induction false} MatchUpperRunIff(s: string, min: nat, max: nat)
    ensures MatchUpperRun(s, min, max) <==>
      min <= |s| <= max && forall i :: 0 <= i < |s| ==> IsUpperAscii(s[i])
    decreases |s|
  {
    if s != [] && max > 0 {
      MatchUpperRunIff(s[1..], if min > 0 then min - 1 else 0, max - 1);
      assert forall i :: 1 <= i < |s| ==> s[i] == s[1..][i - 1];
    }
  }

  /** `isValidSymbol`: `/^[A-Z]{1,5}$/`. */
  function IsValidSymbol(symbol: string): (valid: bool)
    ensures valid <==> 1 <= |symbol| <= 5 && forall i :: 0 <= i < |symbol| ==> IsUpperAscii(symbol[i])
  {
    MatchUpperRunIff(symbol, 1, 5);
    MatchUpperRun(symbol, 1, 5)
  }

  /** A valid symbol is already normal: normalising it changes nothing. */
  lemma ValidSymbolIsNormal(symbol: string)
    requires IsValidSymbol(symbol)
    ensures NormalizeSymbol(symbol) == symbol
  {
    assert forall c :: c in symbol ==> !IsLowerAscii(c);
    ToUpperNoLower(symbol);
    assert !IsJsWhitespace(symbol[0]) && !IsJsWhitespace(symbol[|symbol| - 1]);
    assert TrimStart(symbol) == symbol;
    assert TrimEnd(symbol) == symbol;
  }
}

/**
 * The "measure then format" rule that every expectation macro uses to fill
 * the fixed-size text buffers of a FailureInfo (SAVE_MESSAGE,
 * COLLECT_*_VERIFICATION_TOKEN*, SAVE_ONE_VALUE, SAVE_TWO_VALUE).
 *
 * A formatted text is abstract: only its characters and its length matter.
 * Writing into a buffer of ValueBuf bytes keeps at most ValueBuf - 1
 * characters (the last byte holds the terminator).
 */
module Truncation {
  import opened Types

  /** What measuring a format with a zero-sized snprintf reports: the text it would produce, or an encoding error. */
  datatype Formatted = Text(s: string) | FormatError

  /** The size the measuring call returns; an encoding error is negative. */
  function MeasuredSize(f: Formatted): int
  {
    match f
    case Text(s) => |s|
    case FormatError => -1
  }

  const TruncatedMarker: string := "(truncated)"
  const FormatErrorMessage: string := "[ERROR] Unable to format message"
  const TruncatedTokens: string := "( truncated )"

  /** Formatting into a ValueBuf-byte buffer: the text itself when it fits, else its longest prefix that fits. */
  function Clip(s: string): (r: string)
    ensures |r| < ValueBuf && r <= s
    ensures r == s <==> |s| < ValueBuf
    ensures |s| >= ValueBuf ==> |r| == ValueBuf - 1
  {
    if |s| < ValueBuf then s else s[..ValueBuf - 1]
  }

  /** The truncation law for one field: the whole text when it fits, the marker when it does not. */
  predicate ObeysTruncationLaw(f: Formatted, r: string)
  {
    match f
    case FormatError => r == ""
    case Text(s) => (|s| < ValueBuf ==> r == s) && (|s| >= ValueBuf ==> r == TruncatedMarker)
  }

  /**
   * A label or a value field: the whole text when its measured size is
   * below ValueBuf, exactly the marker otherwise, and nothing written
   * (the field stays zeroed) when the measured size is not positive.
   */
  function Store(f: Formatted): (r: string)
    ensures |r| < ValueBuf
    ensures r == "" || r == TruncatedMarker || (f.Text? && r == f.s)
    ensures f.Text? ==> (r == f.s <==> |f.s| < ValueBuf)
    ensures f.FormatError? ==> r == ""
    ensures ObeysTruncationLaw(f, r)
  {
    match f
    case FormatError => ""
    case Text(s) => if |s| < ValueBuf then s else TruncatedMarker
  }

  /** The message field pair `(has_msg, msg)`; None is an expectation called without a message. */
  function SaveMessage(f: Option<Formatted>): (r: (bool, string))
    ensures |r.1| < ValueBuf
    ensures r.0 <==> f.Some? && MeasuredSize(f.value) != 0
    ensures f.Some? && f.value.Text? && 0 < |f.value.s| < ValueBuf ==> r.1 == f.value.s
    ensures f.Some? && f.value.Text? && |f.value.s| >= ValueBuf ==> r.1 == TruncatedMarker
    ensures f.Some? && f.value.FormatError? ==> r.1 == FormatErrorMessage
  {
    match f
    case None => (false, "")
    case Some(Text(s)) =>
      if |s| == 0 then (false, "")
      else if |s| < ValueBuf then (true, s)
      else (true, TruncatedMarker)
    case Some(FormatError) => (true, FormatErrorMessage)
  }

  /** The text `NAME(args)` that a verification token collector measures. */
  function FullVerification(name: string, args: string): string
  {
    name + "(" + args + ")"
  }

  /**
   * The verification text: `NAME(args)` when it fits, else `NAME( truncated )`
   * formatted into the same buffer. `args` is the stringified first operand,
   * or both operands joined by ", ".
   */
  function VerificationText(name: string, args: string): (r: string)
    ensures |r| < ValueBuf
    ensures r == FullVerification(name, args) <==> |FullVerification(name, args)| < ValueBuf
    ensures (|FullVerification(name, args)| >= ValueBuf && |name + TruncatedTokens| < ValueBuf)
              ==> r == name + TruncatedTokens
  {
    var full := FullVerification(name, args);
    if |full| < ValueBuf then full
    else
      var marked := Clip(name + TruncatedTokens);
      assert |marked| < ValueBuf <= |full|;
      marked
  }

  /** The rendered operands of an expectation: one value with a fixed reason, or an actual/expected pair. */
  datatype Operands =
    | OneValue(token: string, value: Formatted, reason: string)
    | TwoValues(actualToken: string, actualValue: Formatted, expectedToken: string, expectedValue: Formatted)

  /**
   * The expected-value field as SAVE_TWO_VALUE writes it: the guard on the
   * expected text's size compares the ACTUAL value's measured size, so a
   * long expected text next to a short actual text is cut to a prefix, and a
   * short expected text next to a long actual text becomes the marker.
   */
  function StoreExpectedAsWritten(actual: Formatted, expected: Formatted): (r: string)
    ensures |r| < ValueBuf
    ensures MeasuredSize(expected) <= 0 ==> r == ""
    ensures MeasuredSize(expected) > 0 && MeasuredSize(actual) >= ValueBuf ==> r == TruncatedMarker
    ensures MeasuredSize(expected) > 0 && MeasuredSize(actual) < ValueBuf ==> r <= expected.s
  {
    if MeasuredSize(expected) > 0 then
      if MeasuredSize(actual) < ValueBuf then Clip(expected.s) else TruncatedMarker
    else ""
  }

  /** The failure record ATTEST_EXPECT fills, as the macros are written. */
  function BuildFailure(filename: string, line: int, msg: Option<Formatted>, name: string, args: string, operands: Operands): (r: FailureInfo)
    ensures r.filename == filename && r.line == line
    ensures (r.hasMsg, r.msg) == SaveMessage(msg)
    ensures |r.verificationText| < ValueBuf && |r.actualLabel| < ValueBuf && |r.actualValue| < ValueBuf
    ensures |r.expectedLabel| < ValueBuf && |r.expectedValue| < ValueBuf && |r.reason| < ValueBuf
    ensures r.verificationText == VerificationText(name, args)
    ensures r.hasExpectedValue <==> operands.TwoValues?
    ensures operands.OneValue? ==>
              && ObeysTruncationLaw(Text(operands.token), r.actualLabel)
              && ObeysTruncationLaw(operands.value, r.actualValue)
              && r.expectedLabel == "" && r.expectedValue == "" && r.reason == Clip(operands.reason)
    ensures operands.TwoValues? ==>
              && ObeysTruncationLaw(Text(operands.actualToken), r.actualLabel)
              && ObeysTruncationLaw(operands.actualValue, r.actualValue)
              && ObeysTruncationLaw(Text(operands.expectedToken), r.expectedLabel)
              && r.expectedValue == StoreExpectedAsWritten(operands.actualValue, operands.expectedValue)
              && r.reason == ""
  {
    var (hasMsg, text) := SaveMessage(msg);
    var verification := VerificationText(name, args);
    match operands
    case OneValue(token, value, reason) =>
      FailureInfo(filename, line, hasMsg, text, verification,
                  Store(Text(token)), Store(value), false, "", "", Clip(reason))
    case TwoValues(actualToken, actualValue, expectedToken, expectedValue) =>
      FailureInfo(filename, line, hasMsg, text, verification,
                  Store(Text(actualToken)), Store(actualValue), true,
                  Store(Text(expectedToken)), StoreExpectedAsWritten(actualValue, expectedValue), "")
  }

  /** The failure record with the expected value guarded by its own measured size. */
  function BuildFailureIntended(filename: string, line: int, msg: Option<Formatted>, name: string, args: string, operands: Operands): (r: FailureInfo)
    ensures operands.TwoValues? ==>
              && ObeysTruncationLaw(Text(operands.actualToken), r.actualLabel)
              && ObeysTruncationLaw(operands.actualValue, r.actualValue)
              && ObeysTruncationLaw(Text(operands.expectedToken), r.expectedLabel)
              && ObeysTruncationLaw(operands.expectedValue, r.expectedValue)
    ensures operands.OneValue? ==>
              && ObeysTruncationLaw(Text(operands.token), r.actualLabel)
              && ObeysTruncationLaw(operands.value, r.actualValue)
    ensures r.hasExpectedValue <==> operands.TwoValues?
  {
    var r := BuildFailure(filename, line, msg, name, args, operands);
    match operands
    case OneValue(_, _, _) => r
    case TwoValues(_, actualValue, _, expectedValue) => r.(expectedValue := Store(expectedValue))
  }

  /** A long expected text next to a short actual text is stored as a cut-off prefix, not the marker. */
  lemma ExpectedValueCutToPrefix()
    ensures var expected := seq(200, _ => '8');
            var r := BuildFailure("t.c", 1, None, "EXPECT_EQ", "x, y", TwoValues("x", Text("3"), "y", Text(expected))).expectedValue;
            r != expected && r != TruncatedMarker && |r| == ValueBuf - 1 && r <= expected
  {
    var expected := seq(200, _ => '8');
    var r := StoreExpectedAsWritten(Text("3"), Text(expected));
    assert r == expected[..ValueBuf - 1];
    assert r != TruncatedMarker by { assert |TruncatedMarker| == 11; }
  }

  /** A short expected text next to a long actual text is replaced by the marker although it fits. */
  lemma ExpectedValueSpuriousMarker()
    ensures var actual := seq(200, _ => '8');
            BuildFailure("t.c", 1, None, "EXPECT_EQ", "x, y", TwoValues("x", Text(actual), "y", Text("88"))).expectedValue
              == TruncatedMarker
  {
  }

  /**
   * The corrected record differs from the one the macros fill in the
   * expected value only, obeys the law there, and the two agree whenever
   * the actual and the expected value are both short or both too long.
   */
  lemma IntendedExpectedValue(filename: string, line: int, msg: Option<Formatted>, name: string, args: string,
                              actualToken: string, actual: Formatted, expectedToken: string, expected: Formatted)
    ensures var operands := TwoValues(actualToken, actual, expectedToken, expected);
            var written := BuildFailure(filename, line, msg, name, args, operands);
            var intended := BuildFailureIntended(filename, line, msg, name, args, operands);
            && intended == written.(expectedValue := intended.expectedValue)
            && ObeysTruncationLaw(expected, intended.expectedValue)
            && ((MeasuredSize(actual) < ValueBuf <==> MeasuredSize(expected) < ValueBuf) ==>
                  intended.expectedValue == written.expectedValue)
  {
  }
}

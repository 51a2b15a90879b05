/**
 * The message-count parser of the plugin: the first maximal run of ASCII digits in a
 * command text, read as a decimal number (main.py:218-235), and Python's `str()` of a
 * non-negative integer, which the parser inverts.
 */
module Digits {
  import opened Wrappers

  /**
   * Python 3.11 and later refuse to convert a decimal string of more than this many digits
   * with `int()` and raise `ValueError` (the interpreter's default integer string limit).
   */
  const MaxStrDigits: nat := 4300

  predicate IsDigit(c: char) {
    '0' <= c <= '9'
  }

  predicate AllDigits(s: string) {
    forall k :: 0 <= k < |s| ==> IsDigit(s[k])
  }

  predicate NoDigits(s: string) {
    forall k :: 0 <= k < |s| ==> !IsDigit(s[k])
  }

  function DigitValue(c: char): (d: nat)
    requires IsDigit(c)
    ensures d < 10
  {
    c as int - '0' as int
  }

  function DigitChar(d: nat): (c: char)
    requires d < 10
    ensures IsDigit(c) && DigitValue(c) == d
  {
    ('0' as int + d) as char
  }

  /** The value of a digit string, most significant digit first; leading zeros are allowed. */
  function DigitsValue(s: string): nat
    requires AllDigits(s)
  {
    if |s| == 0 then 0 else DigitsValue(s[..|s| - 1]) * 10 + DigitValue(s[|s| - 1])
  }

  /** Python's `str(n)` for a non-negative integer: decimal digits without leading zeros. */
  function DecimalString(n: nat): (r: string)
    ensures 1 <= |r| && AllDigits(r)
    ensures r[0] == '0' ==> n == 0
  {
    if n < 10 then [DigitChar(n)] else DecimalString(n / 10) + [DigitChar(n % 10)]
  }

  /** Index of the first digit of `s`, or `|s|` when there is none. */
  function FirstDigit(s: string): (i: nat)
    ensures i <= |s|
    ensures NoDigits(s[..i])
    ensures i < |s| ==> IsDigit(s[i])
  {
    if |s| == 0 || IsDigit(s[0]) then 0
    else
      var i' := FirstDigit(s[1..]);
      assert s[..1 + i'] == [s[0]] + s[1..][..i'];
      1 + i'
  }

  /** End of the maximal run of digits of `s` that starts at `i`. */
  function RunEnd(s: string, i: nat): (j: nat)
    requires i <= |s|
    ensures i <= j <= |s|
    ensures AllDigits(s[i..j])
    ensures j == |s| || !IsDigit(s[j])
    decreases |s| - i
  {
    if i < |s| && IsDigit(s[i]) then
      var j := RunEnd(s, i + 1);
      assert s[i..j] == [s[i]] + s[i + 1..j];
      j
    else i
  }

  /** `s[i..j]` is the first maximal run of digits in `s`: what `re.search(r'(\d+)', s)` matches. */
  predicate IsFirstRun(s: string, i: nat, j: nat) {
    && i < j <= |s|
    && NoDigits(s[..i])
    && AllDigits(s[i..j])
    && (j == |s| || !IsDigit(s[j]))
  }

  /** The first maximal run is unique: it starts at the first digit and ends where that run ends. */
  lemma FirstRunUnique(s: string, i: nat, j: nat)
    requires IsFirstRun(s, i, j)
    ensures i == FirstDigit(s) && j == RunEnd(s, i)
  {
    var f := FirstDigit(s);
    var e := RunEnd(s, i);
    // Index facts about the four slices involved; the bounds then follow from the two contracts.
    assert forall k :: 0 <= k < f ==> s[..f][k] == s[k];
    assert forall k :: 0 <= k < i ==> s[..i][k] == s[k];
    assert forall k :: i <= k < j ==> s[i..j][k - i] == s[k];
    assert forall k :: i <= k < e ==> s[i..e][k - i] == s[k];
  }

  /** A text with a digit has a first maximal run. */
  lemma FirstRunExists(s: string)
    requires !NoDigits(s)
    ensures IsFirstRun(s, FirstDigit(s), RunEnd(s, FirstDigit(s)))
  {
    var i := FirstDigit(s);
    assert s[..|s|] == s;
  }

  /**
   * `ChatSummary._extract_num_messages`: the value of the first maximal run of digits, or
   * None when the text has no digit or when `int()` refuses the run for its length.
   */
  function ExtractNumMessages(text: string): (r: Option<nat>)
    ensures NoDigits(text) ==> r == None
    ensures forall i: nat, j: nat {:trigger IsFirstRun(text, i, j)} :: IsFirstRun(text, i, j) ==>
      r == if j - i <= MaxStrDigits then Some(DigitsValue(text[i..j])) else None
  {
    var i := FirstDigit(text);
    if i == |text| then
      assert text[..i] == text;
      assert forall i': nat, j': nat {:trigger IsFirstRun(text, i', j')} :: IsFirstRun(text, i', j') ==> !IsDigit(text[i']);
      None
    else
      var j := RunEnd(text, i);
      assert forall i', j' {:trigger IsFirstRun(text, i', j')} :: IsFirstRun(text, i', j') ==> i' == i && j' == j by {
        forall i', j' | IsFirstRun(text, i', j') ensures i' == i && j' == j {
          FirstRunUnique(text, i', j');
        }
      }
      if j - i <= MaxStrDigits then Some(DigitsValue(text[i..j])) else None
  }

  /** The count used by the handler: the extracted number, or the configured default (main.py:253-255). */
  function RequestedCount(text: string, default: int): (n: int)
    ensures NoDigits(text) ==> n == default
    ensures forall i: nat, j: nat {:trigger IsFirstRun(text, i, j)} :: IsFirstRun(text, i, j) ==>
      n == if j - i <= MaxStrDigits then DigitsValue(text[i..j]) else default
  {
    match ExtractNumMessages(text)
    case Some(n) => n
    case None => default
  }

  lemma DigitsValueSnoc(s: string, c: char)
    requires AllDigits(s) && IsDigit(c)
    ensures AllDigits(s + [c]) && DigitsValue(s + [c]) == DigitsValue(s) * 10 + DigitValue(c)
  {
    assert (s + [c])[..|s|] == s;
  }

  /** Reading back `str(n)` gives `n`. */
  lemma {:induction false} DecimalRoundTrip(n: nat)
    ensures DigitsValue(DecimalString(n)) == n
  {
    if n < 10 {
      assert DigitsValue(DecimalString(n)) == DigitsValue([] + [DigitChar(n)]);
      DigitsValueSnoc([], DigitChar(n));
    } else {
      DecimalRoundTrip(n / 10);
      DigitsValueSnoc(DecimalString(n / 10), DigitChar(n % 10));
    }
  }

  /**
   * A number written between a digit-free prefix and a suffix that does not begin with a
   * digit is what the parser extracts (for instance "总结100条" gives 100).
   */
  lemma ExtractEmbedded(prefix: string, n: nat, suffix: string)
    requires NoDigits(prefix)
    requires |suffix| == 0 || !IsDigit(suffix[0])
    requires |DecimalString(n)| <= MaxStrDigits
    ensures ExtractNumMessages(prefix + DecimalString(n) + suffix) == Some(n)
  {
    var d := DecimalString(n);
    var text := prefix + d + suffix;
    var i, j := |prefix|, |prefix| + |d|;
    assert text[..i] == prefix;
    assert text[i..j] == d;
    assert j < |text| ==> text[j] == suffix[0];
    assert IsFirstRun(text, i, j);
    DecimalRoundTrip(n);
  }

  /** `str(100)` and `str(500)`. */
  lemma DecimalStringExamples()
    ensures DecimalString(100) == "100" && DecimalString(500) == "500"
  {
    assert DecimalString(10) == "10" && DecimalString(50) == "50";
  }

  /** The examples of the command syntax: a count is read, and a text without a digit gives None. */
  lemma ExtractExamples()
    ensures ExtractNumMessages("总结100条") == Some(100)
    ensures ExtractNumMessages("总结") == None
    ensures RequestedCount("总结", 200) == 200
  {
    DecimalStringExamples();
    assert "总结" + DecimalString(100) + "条" == "总结100条";
    ExtractEmbedded("总结", 100, "条");
  }

  /** Only the first run of digits counts, and its leading zeros are ignored. */
  lemma ExtractFirstRunExample()
    ensures ExtractNumMessages("a007b12") == Some(7)
  {
    var t := "a007b12";
    assert t[..1] == "a" && t[1..4] == "007";
    assert IsFirstRun(t, 1, 4);
    assert DigitsValue("007") == 7 by {
      assert "007"[..2] == "00" && "00"[..1] == "0" && "0"[..0] == "";
    }
  }
}

/**
  The one message of the PID handoff pipe: the intermediate process writes the
  decimal text of the init process's host PID (`str(pid).encode()`), and the
  coordinator reads at most 1024 bytes, decodes them, strips whitespace and
  parses an integer (`int(data.decode().strip())`).
 */
module PidHandoff {
  import opened Common
  import opened PyText

  /** The coordinator's single `os.read(parent_pipe, 1024)`. */
  const READ_LIMIT := 1024

  /** The largest PID Linux can hand out (PID_MAX_LIMIT, 2^22). */
  const PID_MAX_LIMIT := 4194304

  datatype HandoffError =
    | NotAscii        // `bytes.decode()` failed, or produced text `int` rejects
    | NotAnInteger    // `int()` raised ValueError (the empty read among others)

  predicate IsDigit(ch: char) { '0' <= ch <= '9' }

  function DigitChar(d: nat): (ch: char)
    requires d < 10
    ensures IsDigit(ch)
  {
    ('0' as int + d) as char
  }

  function DigitValue(ch: char): (d: nat)
    requires IsDigit(ch)
    ensures d < 10
  {
    ch as int - '0' as int
  }

  /** Decimal digits of `n`, most significant first, without leading zeros. */
  function Digits(n: nat): (r: string)
    ensures r != [] && forall i :: 0 <= i < |r| ==> IsDigit(r[i])
    ensures r[0] == '0' <==> n == 0
    decreases n
  {
    if n < 10 then [DigitChar(n)] else Digits(n / 10) + [DigitChar(n % 10)]
  }

  /** `str(n)` for a Python int. */
  function DecimalString(n: int): (r: string)
    ensures r != [] && !IsSpace(r[0]) && !IsSpace(r[|r| - 1])
    ensures forall i :: 0 <= i < |r| ==> r[i] as int < 128
  {
    if n < 0 then "-" + Digits(-n) else Digits(n)
  }

  /** `str(pid).encode()`: the bytes the intermediate process writes into the pipe. */
  function EncodePid(pid: int): (b: seq<byte>)
    ensures |b| == |DecimalString(pid)|
    ensures forall i :: 0 <= i < |b| ==> b[i] < 128
  {
    var s := DecimalString(pid);
    seq(|s|, i requires 0 <= i < |s| => s[i] as int as byte)
  }

  /** What one `os.read(parent_pipe, 1024)` returns of the bytes written before the writer closed. */
  function ReadPipe(written: seq<byte>): (got: seq<byte>)
    ensures |got| <= READ_LIMIT && |got| <= |written| && got == written[..|got|]
    ensures |written| <= READ_LIMIT ==> got == written
  {
    written[..Min(|written|, READ_LIMIT)]
  }

  /** `bytes.decode()` as far as the model goes: ASCII bytes become their characters. */
  function DecodeAscii(b: seq<byte>): (r: Option<string>)
    ensures r.Some? ==> |r.value| == |b|
  {
    if forall i :: 0 <= i < |b| ==> b[i] < 128
    then Some(seq(|b|, i requires 0 <= i < |b| => b[i] as char))
    else None
  }

  /** Value of a run of decimal digits and single underscores (underscores are skipped). */
  function DigitsValue(s: string): nat
    requires forall i :: 0 <= i < |s| ==> IsDigit(s[i]) || s[i] == '_'
  {
    if s == [] then 0
    else if s[|s| - 1] == '_' then DigitsValue(s[..|s| - 1])
    else DigitsValue(s[..|s| - 1]) * 10 + DigitValue(s[|s| - 1])
  }

  /** The digit part `int()` accepts: digits, with single underscores only between digits. */
  predicate WellFormedDigits(s: string) {
    && s != []
    && (forall i :: 0 <= i < |s| ==> IsDigit(s[i]) || s[i] == '_')
    && IsDigit(s[0]) && IsDigit(s[|s| - 1])
    && (forall i :: 0 <= i < |s| - 1 ==> !(s[i] == '_' && s[i + 1] == '_'))
  }

  /** `int(s)` on already stripped ASCII text: an optional sign, then digits. */
  function ParseInt(s: string): (r: Result<int, HandoffError>)
    ensures s == [] ==> r.Err?
  {
    if s != [] && (s[0] == '-' || s[0] == '+') then
      if WellFormedDigits(s[1..]) then
        var v: int := DigitsValue(s[1..]);
        Ok(if s[0] == '-' then -v else v)
      else Err(NotAnInteger)
    else if WellFormedDigits(s) then Ok(DigitsValue(s))
    else Err(NotAnInteger)
  }

  /** `int(data.decode().strip())`: the coordinator's reading of the handoff bytes. */
  function DecodePid(data: seq<byte>): (r: Result<int, HandoffError>)
    ensures DecodeAscii(data).None? ==> r == Err(NotAscii)
    ensures DecodeAscii(data).Some? && Strip(DecodeAscii(data).value) == [] ==> r.Err?
  {
    match DecodeAscii(data)
    case None => Err(NotAscii)
    case Some(text) => ParseInt(Strip(text))
  }

  lemma {:induction false} DigitsValueOfDigits(n: nat)
    ensures DigitsValue(Digits(n)) == n
    decreases n
  {
    if n >= 10 {
      var s := Digits(n);
      DigitsValueOfDigits(n / 10);
      assert s[..|s| - 1] == Digits(n / 10);
    }
  }

  lemma DigitsWellFormed(n: nat)
    ensures WellFormedDigits(Digits(n))
  {
  }

  /** Text without surrounding whitespace is unchanged by `strip()`. */
  lemma StripUnspaced(s: string)
    requires s != [] && !IsSpace(s[0]) && !IsSpace(s[|s| - 1])
    ensures Strip(s) == s
  {
  }

  lemma EncodeThenDecodeAscii(pid: int)
    ensures DecodeAscii(EncodePid(pid)) == Some(DecimalString(pid))
  {
    var s := DecimalString(pid);
    var b := EncodePid(pid);
    assert forall i :: 0 <= i < |b| ==> b[i] == s[i] as int;
    var t := seq(|b|, i requires 0 <= i < |b| => b[i] as char);
    assert |t| == |s| && forall i :: 0 <= i < |t| ==> t[i] == s[i];
    assert t == s;
  }

  /** `int` reads back what `str` wrote. */
  lemma ParseDecimalString(n: int)
    ensures ParseInt(DecimalString(n)) == Ok(n)
  {
    var s := DecimalString(n);
    if n < 0 {
      assert s[1..] == Digits(-n);
      DigitsWellFormed(-n);
      DigitsValueOfDigits(-n);
    } else {
      DigitsWellFormed(n);
      DigitsValueOfDigits(n);
    }
  }

  /** Every integer survives `str`, `encode`, `decode`, `strip` and `int` unchanged. */
  lemma HandoffRoundTrip(pid: int)
    ensures DecodePid(EncodePid(pid)) == Ok(pid)
  {
    EncodeThenDecodeAscii(pid);
    StripUnspaced(DecimalString(pid));
    ParseDecimalString(pid);
  }

  function Pow10(k: nat): nat { if k == 0 then 1 else 10 * Pow10(k - 1) }

  lemma {:induction false} DigitsLength(n: nat, k: nat)
    requires 1 <= k && n < Pow10(k)
    ensures |Digits(n)| <= k
    decreases k
  {
    if n >= 10 {
      assert Pow10(1) == 10;
      DigitsLength(n / 10, k - 1);
    }
  }

  /**
    For every PID the kernel can issue, the message fits in one read, so the
    coordinator learns exactly the PID the intermediate process wrote.
   */
  lemma HandoffDeliversPid(pid: int)
    requires 0 <= pid <= PID_MAX_LIMIT
    ensures DecodePid(ReadPipe(EncodePid(pid))) == Ok(pid)
  {
    assert Pow10(7) == 10000000;
    DigitsLength(pid, 7);
    HandoffRoundTrip(pid);
  }

  /** A writer that closed without writing (or wrote only whitespace) yields an error, never a PID. */
  lemma {:induction false} BlankHandoffFails(data: seq<byte>)
    requires forall i :: 0 <= i < |data| ==> data[i] < 128 && IsSpace(data[i] as char)
    ensures DecodePid(ReadPipe(data)).Err?
  {
    var got := ReadPipe(data);
    var text := DecodeAscii(got).value;
    assert forall i :: 0 <= i < |text| ==> IsSpace(text[i]);
    assert StripLeft(text) == [] by { AllSpaceStripsLeft(text); }
  }

  lemma {:induction false} AllSpaceStripsLeft(s: string)
    requires forall i :: 0 <= i < |s| ==> IsSpace(s[i])
    ensures StripLeft(s) == []
  {
    if s != [] {
      AllSpaceStripsLeft(s[1..]);
    }
  }
}

/**
 The prompts of the remote shell (`aiShellSetup`, ai_session.go) as the marker
 parser reads them: the exit code of every line comes through.
 */
module PromptMarkers {
  import opened Bytes
  import opened MarkerParser

  /** How the shell prints a number. */
  function Printed(n: nat): seq<Byte> {
    if n < 10 then [0x30 + n] else Printed(n / 10) + [0x30 + n % 10]
  }

  /** What `PS1='\x1eSG:<nonce>:$?\x1e'` prints. */
  function Prompt(nonce: seq<Byte>, code: nat): seq<Byte> {
    [0x1e, 0x53, 0x47, 0x3a] + nonce + [0x3a] + Printed(code) + [0x1e]
  }

  /** What `PS2='\x1eSG2:<nonce>\x1e'` prints. */
  function SecondPrompt(nonce: seq<Byte>): seq<Byte> {
    [0x1e, 0x53, 0x47, 0x32, 0x3a] + nonce + [0x1e]
  }

  /** The printed digits have the number's value. */
  lemma {:induction false} PrintedValue(n: nat)
    ensures AllDigits(Printed(n)) && Decimal(Printed(n)) == n
  {
    if n >= 10 {
      PrintedValue(n / 10);
      assert Printed(n)[..|Printed(n)| - 1] == Printed(n / 10);
    } else {
      assert Printed(n)[..0] == [];
    }
  }

  function Pow10(d: nat): (n: nat)
    ensures n >= 1
  {
    if d == 0 then 1 else 10 * Pow10(d - 1)
  }

  lemma TenIsPow10()
    ensures Pow10(1) == 10
  {
    assert Pow10(0) == 1;
  }

  lemma {:induction false} PrintedLength(n: nat, d: nat)
    requires d >= 1 && n < Pow10(d)
    ensures 1 <= |Printed(n)| <= d
  {
    if n >= 10 {
      TenIsPow10();
      PrintedLength(n / 10, d - 1);
    }
  }

  lemma PromptIsMarker(nonce: seq<Byte>, code: nat)
    requires code < 10000
    ensures IsCodeMarker(nonce, Prompt(nonce, code))
    ensures Prompt(nonce, code)[|Ps1(nonce)|..|Prompt(nonce, code)| - 1] == Printed(code)
  {
    PrintedValue(code);
    assert Pow10(4) == 10000;
    PrintedLength(code, 4);
    assert Prompt(nonce, code) == Ps1(nonce) + Printed(code) + [0x1e];
  }

  /** Exit codes up to four digits: the prompt in front of any bytes is read as one marker
      that carries exactly the code. */
  lemma PromptCarriesTheCode(nonce: seq<Byte>, code: nat, rest: seq<Byte>, at: nat)
    requires code < 10000
    ensures Parse(nonce, Prompt(nonce, code) + rest) == Then([Mark(Prompt(nonce, code))], Parse(nonce, rest))
    ensures MarkerOf(nonce, Prompt(nonce, code), at) == Marker(at, code, false)
  {
    PromptIsMarker(nonce, code);
    PrintedValue(code);
    ParseMarkerFirst(nonce, Prompt(nonce, code), rest);
  }

  /** The second prompt is read as a continuation. */
  lemma SecondPromptContinues(nonce: seq<Byte>, rest: seq<Byte>, at: nat)
    ensures Parse(nonce, SecondPrompt(nonce) + rest) == Then([Mark(SecondPrompt(nonce))], Parse(nonce, rest))
    ensures MarkerOf(nonce, SecondPrompt(nonce), at) == Marker(at, 0, true)
  {
    assert SecondPrompt(nonce) == Ps2(nonce);
    assert Ps1(nonce)[3] != SecondPrompt(nonce)[3];
    ParseMarkerFirst(nonce, SecondPrompt(nonce), rest);
  }

  lemma {:induction false} PrintedIsLonger(n: nat, d: nat)
    requires n >= Pow10(d)
    ensures |Printed(n)| > d
  {
    if d > 0 {
      assert Pow10(d) == 10 * Pow10(d - 1) && Pow10(d - 1) >= 1;
      PrintedIsLonger(n / 10, d - 1);
    }
  }

  /** A number of five digits or more makes no marker: exit codes have at most four. */
  lemma LongerNumbersAreNoMarker(nonce: seq<Byte>, code: nat)
    requires code >= 10000
    ensures !IsMarker(nonce, Prompt(nonce, code))
  {
    assert Pow10(4) == 10000;
    PrintedIsLonger(code, 4);
    assert |Prompt(nonce, code)| == |nonce| + 6 + |Printed(code)|;
    assert Prompt(nonce, code)[3] == 0x3a && Ps2(nonce)[3] == 0x32;
  }
}

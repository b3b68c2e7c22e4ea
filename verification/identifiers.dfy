/** The identifier value types of `types.py`: FAA N-Numbers and Mode-S transponder codes.
    Each grammar is given twice: declaratively, as the regular expression reads, and as a
    hand-written recogniser; lemmas prove the two agree on every string. */
module Identifiers {

  import opened Wrappers
  import opened Text

  const NNumberMessage := "Invalid N-Number format. It must start with 'N', not begin with zero, and use valid characters."
  const ModeSMessage := "Mode-S code must be " + "exactly 6 hexadecimal characters."

  // ---------------------------------------------------------------------------------------
  // N-Number: ^N[1-9][0-9]{0,4}[A-HJ-NP-Z]{0,2}$

  /** `s` is `N`, a non-zero digit, the digits of positions `2 .. k-1` (at most four) and the
      letters of positions `k ..` (at most two): one way of reading `s` against the pattern. */
  predicate SplitsAsNNumber(s: string, k: int) {
    && 2 <= k <= |s|
    && s[0] == 'N'
    && IsNonZeroDigit(s[1])
    && k - 2 <= 4
    && |s| - k <= 2
    && (forall i | 2 <= i < k :: IsAsciiDigit(s[i]))
    && (forall i | k <= i < |s| :: IsRegistrationLetter(s[i]))
  }

  /** `s` fully matches `N[1-9][0-9]{0,4}[A-HJ-NP-Z]{0,2}`. */
  ghost predicate NNumberPattern(s: string) {
    exists k :: SplitsAsNNumber(s, k)
  }

  /** The states of a left-to-right scanner for the N-Number grammar. `Digits(n)` has read the
      leading non-zero digit and `n` more digits; `Letters(m)` has read `m` letters. */
  datatype ScanState = Start | SawN | Digits(extra: nat) | Letters(count: nat) | Dead

  function Step(q: ScanState, c: char): ScanState {
    match q
    case Start => if c == 'N' then SawN else Dead
    case SawN => if IsNonZeroDigit(c) then Digits(0) else Dead
    case Digits(n) =>
      if IsAsciiDigit(c) then (if n < 4 then Digits(n + 1) else Dead)
      else if IsRegistrationLetter(c) then Letters(1)
      else Dead
    case Letters(m) => if IsRegistrationLetter(c) && m < 2 then Letters(m + 1) else Dead
    case Dead => Dead
  }

  /** The state reached after reading all of `s`. */
  function Scan(s: string): ScanState
    decreases |s|
  {
    if |s| == 0 then Start else Step(Scan(s[..|s| - 1]), s[|s| - 1])
  }

  predicate IsNNumber(s: string) {
    var q := Scan(s);
    q.Digits? || q.Letters?
  }

  /** What having reached state `q` says about the prefix `p` read so far. */
  ghost predicate Describes(q: ScanState, p: string) {
    match q
    case Start => p == []
    case SawN => p == ['N']
    case Digits(n) => n <= 4 && |p| == n + 2 && SplitsAsNNumber(p, |p|)
    case Letters(m) => 1 <= m <= 2 && m + 2 <= |p| && SplitsAsNNumber(p, |p| - m)
    case Dead => 1 <= |p| && p != ['N'] && !NNumberPattern(p)
  }

  /** Once a prefix of length two or more fails the pattern, one more character cannot make it
      match. */
  lemma RejectionPersists(q: string, c: char)
    requires 2 <= |q| && !NNumberPattern(q)
    ensures !NNumberPattern(q + [c])
  {
    var p := q + [c];
    forall k | SplitsAsNNumber(p, k)
      ensures false
    {
      var k' := if k <= |q| then k else |q|;
      assert SplitsAsNNumber(q, k') by {
        forall i | 2 <= i < k' ensures IsAsciiDigit(q[i]) { assert q[i] == p[i]; }
        forall i | k' <= i < |q| ensures IsRegistrationLetter(q[i]) { assert q[i] == p[i]; }
      }
    }
  }

  /** Once a prefix of length two or more fails the pattern, no continuation, however long,
      makes it match. */
  lemma {:induction false} RejectionIsFinal(q: string, r: string)
    requires 2 <= |q| && !NNumberPattern(q)
    ensures !NNumberPattern(q + r)
    decreases |r|
  {
    if |r| > 0 {
      var q' := q + r[..|r| - 1];
      RejectionIsFinal(q, r[..|r| - 1]);
      RejectionPersists(q', r[|r| - 1]);
      assert q' + [r[|r| - 1]] == q + r;
    } else {
      assert q + r == q;
    }
  }

  /** One scanner step keeps `Describes`. */
  lemma StepDescribes(q: string, c: char)
    requires Describes(Scan(q), q)
    ensures Describes(Step(Scan(q), c), q + [c])
  {
    var p := q + [c];
    assert forall i | 0 <= i < |q| :: p[i] == q[i];
    assert p[|q|] == c;
    match Scan(q)
    case Start =>
      assert p == [c];
    case SawN =>
      if IsNonZeroDigit(c) {
        assert SplitsAsNNumber(p, 2);
      }
    case Digits(n) =>
      if IsAsciiDigit(c) && n < 4 {
        assert SplitsAsNNumber(p, |p|);
      } else if IsAsciiDigit(c) {
        forall k | 2 <= k <= |p| ensures !SplitsAsNNumber(p, k) {
          if k <= |q| {
            assert !IsRegistrationLetter(p[|q|]);
          }
        }
      } else if IsRegistrationLetter(c) {
        assert SplitsAsNNumber(p, |q|);
      } else {
        forall k | 2 <= k <= |p| ensures !SplitsAsNNumber(p, k) {
          if k <= |q| {
            assert !IsRegistrationLetter(p[|q|]);
          } else {
            assert !IsAsciiDigit(p[|q|]);
          }
        }
      }
    case Letters(m) =>
      if IsRegistrationLetter(c) && m < 2 {
        assert SplitsAsNNumber(p, |p| - (m + 1));
      } else if IsRegistrationLetter(c) {
        forall k | 2 <= k <= |p| ensures !SplitsAsNNumber(p, k) {
          if k > |q| - 2 {
            assert !IsAsciiDigit(p[|q| - 2]);
          }
        }
      } else {
        forall k | 2 <= k <= |p| ensures !SplitsAsNNumber(p, k) {
          if k <= |q| {
            assert !IsRegistrationLetter(p[|q|]);
          } else {
            assert !IsAsciiDigit(p[|q| - 1]);
          }
        }
      }
    case Dead =>
      if |q| == 1 {
        assert p[0] != 'N';
      } else {
        RejectionPersists(q, c);
      }
  }

  lemma {:induction false} ScanDescribes(s: string)
    ensures Describes(Scan(s), s)
    decreases |s|
  {
    if |s| > 0 {
      var q := s[..|s| - 1];
      ScanDescribes(q);
      StepDescribes(q, s[|s| - 1]);
      assert q + [s[|s| - 1]] == s;
    }
  }

  /** The recogniser accepts exactly the strings that fully match the N-Number pattern. */
  lemma IsNNumberMatchesPattern(s: string)
    ensures IsNNumber(s) <==> NNumberPattern(s)
  {
    ScanDescribes(s);
    match Scan(s)
    case Digits(n) => assert SplitsAsNNumber(s, |s|);
    case Letters(m) => assert SplitsAsNNumber(s, |s| - m);
    case _ =>
  }

  /** Every accepted N-Number is 2 to 8 characters long, starts with `N` and a non-zero digit,
      and after the `N` holds only ASCII digits and upper-case registration letters: no `I`, no
      `O` and no lower-case letter of any alphabet. */
  lemma AcceptedNNumberShape(s: string)
    requires IsNNumber(s)
    ensures 2 <= |s| <= 8
    ensures s[0] == 'N' && IsNonZeroDigit(s[1])
    ensures forall i | 1 <= i < |s| :: IsAsciiDigit(s[i]) || IsRegistrationLetter(s[i])
    ensures forall i | 0 <= i < |s| :: s[i] != 'I' && s[i] != 'O'
  {
    IsNNumberMatchesPattern(s);
    var k :| SplitsAsNNumber(s, k);
  }

  /** `NNumber(value)`: an identifier that passed `NNumber.create`. */
  datatype NNumber = NNumber(value: string)

  /** `NNumber.create`: the value is kept unchanged when it matches, otherwise the fixed message. */
  function CreateNNumber(s: string): (r: Result<NNumber, string>)
    ensures r.Success? <==> NNumberPattern(s)
    ensures r.Success? ==> r.value.value == s
    ensures r.Failure? ==> r.error == NNumberMessage
  {
    IsNNumberMatchesPattern(s);
    if IsNNumber(s) then Success(NNumber(s)) else Failure(NNumberMessage)
  }

  // ---------------------------------------------------------------------------------------
  // Mode-S: [0-9A-Fa-f]{6}

  /** `s` fully matches `[0-9A-Fa-f]{6}`. */
  predicate ModeSPattern(s: string) {
    |s| == 6 && forall i | 0 <= i < |s| :: IsHexDigit(s[i])
  }

  /** The recogniser: counts hexadecimal characters from the front and stops at the first
      that is not one. */
  function HexRun(s: string): (n: nat)
    ensures n <= |s|
    decreases |s|
  {
    if |s| == 0 || !IsHexDigit(s[0]) then 0 else 1 + HexRun(s[1..])
  }

  predicate IsModeSCode(s: string) {
    |s| == 6 && HexRun(s) == 6
  }

  /** `HexRun` is the length of the longest hexadecimal prefix. */
  lemma {:induction false} HexRunIsLongestHexPrefix(s: string)
    ensures forall i | 0 <= i < HexRun(s) :: IsHexDigit(s[i])
    ensures HexRun(s) < |s| ==> !IsHexDigit(s[HexRun(s)])
    decreases |s|
  {
    if |s| > 0 && IsHexDigit(s[0]) {
      HexRunIsLongestHexPrefix(s[1..]);
      assert forall i | 1 <= i < HexRun(s) :: s[i] == s[1..][i - 1];
    }
  }

  lemma IsModeSCodeMatchesPattern(s: string)
    ensures IsModeSCode(s) <==> ModeSPattern(s)
  {
    HexRunIsLongestHexPrefix(s);
  }

  /** `ModeSCode(value)`: a code that passed `ModeSCode.create`; case is preserved. */
  datatype ModeSCode = ModeSCode(value: string)

  /** `ModeSCode.create`. */
  function CreateModeSCode(s: string): (r: Result<ModeSCode, string>)
    ensures r.Success? <==> |s| == 6 && forall i | 0 <= i < |s| :: IsHexDigit(s[i])
    ensures r.Success? ==> r.value.value == s
    ensures r.Failure? ==> r.error == ModeSMessage
  {
    IsModeSCodeMatchesPattern(s);
    if IsModeSCode(s) then Success(ModeSCode(s)) else Failure(ModeSMessage)
  }

  /** No hexadecimal digit is whitespace, so a well-formed Mode-S code is never blank. */
  lemma ModeSCodeIsNotBlank(s: string)
    ensures ModeSPattern(s) ==> !IsBlank(s)
  {
    if ModeSPattern(s) {
      assert IsHexDigit(s[0]);
    }
  }

  /** Likewise an N-Number is never blank. */
  lemma NNumberIsNotBlank(s: string)
    ensures NNumberPattern(s) ==> !IsBlank(s)
  {
    if NNumberPattern(s) {
      var k :| SplitsAsNNumber(s, k);
      assert s[0] == 'N';
    }
  }
}

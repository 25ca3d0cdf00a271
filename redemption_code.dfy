/** Redemption codes (lib/utils/redemptionCode.ts): eight characters drawn
    from `[A-Z0-9]`, re-drawn on collision against an existence check, with
    at most ten re-draws.

    `Math.random` is replaced by a stream of draws: draw `k` is the index
    `Math.floor(Math.random() * 36)` of the k-th call. Candidate `k` of one
    call of the generator is built from draws `8k .. 8k + 7`. */
module RedemptionCode {

  const Alphabet: string := "ABCDEFGHIJKLMNOPQRSTUVWXYZ0123456789"
  const CodeLength: nat := 8
  const MaxAttempts: nat := 10
  const ExhaustedMessage: string := "Failed to generate unique redemption code"

  /** An index into `Alphabet` as `Math.floor(Math.random() * 36)` yields it. */
  type CharIndex = i: int | 0 <= i < 36

  /** The stream of random draws. */
  type RandomSource = nat -> CharIndex

  /** What `generateUniqueRedemptionCode` resolves to: a code, or the error
      it throws. */
  datatype CodeResult = Generated(code: string) | Thrown(message: string)

  predicate IsCodeChar(c: char)
  {
    'A' <= c <= 'Z' || '0' <= c <= '9'
  }

  /** Eight characters over `[A-Z0-9]`. */
  predicate IsRedemptionCode(s: string)
  {
    |s| == CodeLength && forall k :: 0 <= k < |s| ==> IsCodeChar(s[k])
  }

  /** Every character of the alphabet is a code character. */
  lemma AlphabetIsCodeChars()
    ensures |Alphabet| == 36
    ensures forall k :: 0 <= k < |Alphabet| ==> IsCodeChar(Alphabet[k])
  {
    var letters, digits := "ABCDEFGHIJKLMNOPQRSTUVWXYZ", "0123456789";
    assert Alphabet == letters + digits;
    assert forall k :: 0 <= k < |letters| ==> 'A' <= letters[k] <= 'Z';
    assert forall k :: 0 <= k < |digits| ==> '0' <= digits[k] <= '9';
  }

  /** The code spelled by the eight draws starting at `start`. */
  function CodeFrom(random: RandomSource, start: nat): (r: string)
    ensures IsRedemptionCode(r)
    ensures forall i :: 0 <= i < CodeLength ==> r[i] == Alphabet[random(start + i)]
  {
    AlphabetIsCodeChars();
    seq(CodeLength, i requires 0 <= i < CodeLength => Alphabet[random(start + i)])
  }

  /** `generateRedemptionCode`: the loop appends one drawn character per
      round. */
  method GenerateRedemptionCode(random: RandomSource, start: nat) returns (code: string)
    ensures IsRedemptionCode(code)
    ensures code == CodeFrom(random, start)
  {
    code := "";
    for i := 0 to CodeLength
      invariant |code| == i
      invariant forall j :: 0 <= j < i ==> code[j] == Alphabet[random(start + j)]
    {
      code := code + [Alphabet[random(start + i)]];
    }
  }

  /** The k-th candidate of one call of the unique-code generator. */
  function Candidate(random: RandomSource, k: nat): string
  {
    CodeFrom(random, k * CodeLength)
  }

  /** The first candidate from `k` on that is not taken, or `MaxAttempts` if
      candidates `k .. MaxAttempts - 1` are all taken. Candidate number
      `MaxAttempts` is never a result. */
  function FirstFree(random: RandomSource, taken: string -> bool, k: nat): (r: nat)
    requires k <= MaxAttempts
    ensures k <= r <= MaxAttempts
    ensures r < MaxAttempts ==> !taken(Candidate(random, r))
    ensures forall j :: k <= j < r ==> taken(Candidate(random, j))
    decreases MaxAttempts - k
  {
    if k == MaxAttempts then MaxAttempts
    else if !taken(Candidate(random, k)) then k
    else FirstFree(random, taken, k + 1)
  }

  /** The outcome the generator must produce. */
  function UniqueCodeOutcome(random: RandomSource, taken: string -> bool): CodeResult
  {
    var n := FirstFree(random, taken, 0);
    if n < MaxAttempts then Generated(Candidate(random, n)) else Thrown(ExhaustedMessage)
  }

  /** `FirstFree` is determined by its contract: the first untaken candidate
      below the cap, or the cap itself. */
  lemma {:induction false} FirstFreeIs(random: RandomSource, taken: string -> bool, k: nat, n: nat)
    requires k <= n <= MaxAttempts
    requires forall j :: k <= j < n ==> taken(Candidate(random, j))
    requires n < MaxAttempts ==> !taken(Candidate(random, n))
    ensures FirstFree(random, taken, k) == n
    decreases n - k
  {
    if k < n {
      FirstFreeIs(random, taken, k + 1, n);
    }
  }

  /** `generateUniqueRedemptionCode`. The loop condition calls `checkExists`
      before it compares `attempts` with the cap, so after ten collisions the
      eleventh candidate is still checked, and then discarded. */
  method GenerateUniqueRedemptionCode(random: RandomSource, checkExists: string -> bool)
    returns (r: CodeResult, checks: nat)
    ensures r == UniqueCodeOutcome(random, checkExists)
    ensures r.Generated? ==> IsRedemptionCode(r.code) && !checkExists(r.code)
    ensures checks == FirstFree(random, checkExists, 0) + 1 <= MaxAttempts + 1
    ensures !checkExists(Candidate(random, 0)) ==> r == Generated(Candidate(random, 0)) && checks == 1
  {
    var code := GenerateRedemptionCode(random, 0);
    var attempts := 0;
    checks := 0;
    while true
      invariant 0 <= attempts <= MaxAttempts
      invariant checks == attempts
      invariant code == Candidate(random, attempts)
      invariant forall j :: 0 <= j < attempts ==> checkExists(Candidate(random, j))
      decreases MaxAttempts - attempts
    {
      var taken := checkExists(code);
      checks := checks + 1;
      if !(taken && attempts < MaxAttempts) {
        FirstFreeIs(random, checkExists, 0, attempts);
        break;
      }
      code := GenerateRedemptionCode(random, (attempts + 1) * CodeLength);
      attempts := attempts + 1;
    }
    if attempts >= MaxAttempts {
      r := Thrown(ExhaustedMessage);
    } else {
      r := Generated(code);
    }
  }

  /** Ten collisions in a row make the generator throw, whatever the
      eleventh candidate is: in particular when it is free. */
  lemma TenCollisionsThrow(random: RandomSource, taken: string -> bool)
    requires forall j :: 0 <= j < MaxAttempts ==> taken(Candidate(random, j))
    ensures UniqueCodeOutcome(random, taken) == Thrown(ExhaustedMessage)
    ensures FirstFree(random, taken, 0) == MaxAttempts
  {
    FirstFreeIs(random, taken, 0, MaxAttempts);
  }

  /** The generator succeeds exactly when one of the first ten candidates is
      free, and then returns the first free one. */
  lemma GeneratedIffSomeCandidateFree(random: RandomSource, taken: string -> bool)
    ensures UniqueCodeOutcome(random, taken).Generated? <==>
              exists j :: 0 <= j < MaxAttempts && !taken(Candidate(random, j))
    ensures forall j :: 0 <= j < MaxAttempts && !taken(Candidate(random, j)) ==>
              UniqueCodeOutcome(random, taken).Generated? &&
              UniqueCodeOutcome(random, taken).code == Candidate(random, FirstFree(random, taken, 0)) &&
              FirstFree(random, taken, 0) <= j
  {
    if exists j :: 0 <= j < MaxAttempts && !taken(Candidate(random, j)) {
      var j :| 0 <= j < MaxAttempts && !taken(Candidate(random, j));
      assert FirstFree(random, taken, 0) <= j;
    }
  }
}
